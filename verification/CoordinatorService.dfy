/** The coordinator itself: tables it updates in place, one transaction per method.

    A method that refuses rolls its updates back.  Each contract equates the new tables and the reply
    with the transaction's meaning in CoordinatorModel. */
module CoordinatorService {
  import opened Options
  import opened Reservations
  import opened CoordinatorModel

  datatype Result<+T> = Ok(value: T) | Err(error: Error)

  /** What a call leaves behind: the tables its outcome names, or the old ones. */
  ghost predicate Commits<T>(outcome: CoordinatorModel.Outcome<T>, before: Db, after: Db, r: Result<T>) {
    match outcome
    case Done(db, value) => after == db && r == Ok(value)
    case Refused(error) => after == before && r == Err(error)
  }

  class Coordinator {
    const garden: string
    var authority: map<Scope, Authority>
    var claims: map<Scope, Claim>
    var operations: map<string, Operation>
    var outbox: seq<OutboxRow>
    var effects: map<EffectKey, Effect>
    var handoffs: map<HandoffKey, Handoff>
    var cancellations: map<CancelKey, bool>
    var evidence: map<string, string>
    var reservations: Table

    constructor (garden: string)
      ensures this.garden == garden && State() == EMPTY
    {
      this.garden := garden;
      authority, claims, operations, outbox, effects := map[], map[], map[], [], map[];
      handoffs, cancellations, evidence, reservations := map[], map[], map[], Table([], map[]);
    }

    function State(): Db
      reads this
    {
      Db(authority, claims, operations, outbox, effects, handoffs, cancellations, evidence, reservations)
    }

    method Rollback(before: Db)
      modifies this
      ensures State() == before
    {
      authority, claims, operations, outbox, effects :=
        before.authority, before.claims, before.operations, before.outbox, before.effects;
      handoffs, cancellations, evidence, reservations :=
        before.handoffs, before.cancellations, before.evidence, before.reservations;
    }

    method Remember(p: Principal, operation: string, request: Request, reply: Reply)
      modifies `operations
      ensures State() == Record(old(State()), p, operation, request, reply)
    {
      operations := operations[operation := Operation(p.member, p.installation, request, reply)];
    }

    method SetAuthority(p: Principal, s: Scope, owner: string, generation: int, expectedVersion: int, operation: string)
      returns (r: Result<Reply>)
      modifies this
      ensures Commits(CoordinatorModel.SetAuthority(old(State()), p, garden, s, owner, generation, expectedVersion,
                                                    operation),
                      old(State()), State(), r)
    {
      var request := SetAuthorityRequest(s, owner, generation, expectedVersion);
      if p.garden != garden || p.role != Administrator { return Err(PermissionError); }
      if s.name == "" { return Err(ValueError); }
      var repeated := Repeat(State(), p, operation, request);
      if repeated.Repeated? { return Ok(repeated.reply); }
      if repeated.Reused? { return Err(Stale); }
      var version := if s in authority then authority[s].version else 0;
      if version != expectedVersion { return Err(Stale); }
      if s in authority && generation <= authority[s].generation { return Err(Stale); }
      if ScopeHasUnresolvedEffect(effects, s) { return Err(Stale); }
      var reply := AuthoritySet(version + 1, owner, generation, s in authority);
      if s in authority {
        var row := authority[s];
        authority := authority[s := row.(version := version + 1, owner := owner, generation := generation)];
        if HandoffKey(s, generation) !in handoffs {
          var handoff := Handoff(row.owner, owner, row.generation, version + 1, false);
          handoffs := handoffs[HandoffKey(s, generation) := handoff];
        }
        if s in claims {
          cancellations := cancellations[CancelKey(s, claims[s].installation, claims[s].fence) := false];
        }
      } else {
        authority := authority[s := Authority(version + 1, owner, generation, 0)];
      }
      claims := claims - {s};
      Remember(p, operation, request, reply);
      return Ok(reply);
    }

    method InitializeAuthority(p: Principal, rows: seq<(Scope, string)>, operation: string) returns (r: Result<Reply>)
      modifies this
      ensures Commits(CoordinatorModel.InitializeAuthority(old(State()), p, garden, rows, operation),
                      old(State()), State(), r)
    {
      hide Repeat, Quiescent, InstallRows, InstallError;
      var before := State();
      var request := InitializeRequest(rows);
      if p.garden != garden || p.role != Administrator { return Err(PermissionError); }
      var repeated := Repeat(State(), p, operation, request);
      if repeated.Repeated? { return Ok(repeated.reply); }
      if repeated.Reused? { return Err(Stale); }
      if !Quiescent(State()) { return Err(Stale); }
      var failed := Install(rows);
      if failed.Some? {
        Rollback(before);
        return Err(failed.value);
      }
      Remember(p, operation, request, Initialized(|rows|));
      return Ok(Initialized(|rows|));
    }

    /** Inserts the rows one by one and stops at the first that is refused. */
    method Install(rows: seq<(Scope, string)>) returns (failed: Option<Error>)
      modifies `authority
      ensures failed.None? ==> InstallRows(old(authority), rows) == Some(authority)
      ensures failed.Some? ==>
                InstallRows(old(authority), rows).None? && failed.value == InstallError(old(authority), rows)
    {
      assert rows[0..] == rows;
      for i := 0 to |rows|
        invariant InstallRows(authority, rows[i..]) == InstallRows(old(authority), rows)
        invariant InstallRows(authority, rows[i..]).None? ==>
                    InstallError(authority, rows[i..]) == InstallError(old(authority), rows)
      {
        var (s, owner) := rows[i];
        assert rows[i..][1..] == rows[i+1..];
        if s.name == "" { return Some(ValueError); }
        if s in authority { return Some(Stale); }
        authority := authority[s := Authority(1, owner, 1, 0)];
      }
      return None;
    }

    /** Marks the scope's open handoffs ready one by one and stops at the first that is blocked. */
    method CloseHandoffs(s: Scope) returns (blocked: bool)
      modifies `handoffs
      ensures blocked <==> SomeHandoffBlocked(old(State()), s)
      ensures !blocked ==> handoffs == HandoffsReady(old(handoffs), s)
    {
      ghost var before := State();
      var open := set k | k in handoffs && k.scope == s && !handoffs[k].ready;
      while open != {}
        invariant handoffs.Keys == before.handoffs.Keys
        invariant forall k :: k in open ==> k.scope == s && k in handoffs && !before.handoffs[k].ready
        invariant forall k :: k in handoffs ==>
                    handoffs[k] == if k.scope == s && k !in open
                    then before.handoffs[k].(ready := true) else before.handoffs[k]
        invariant forall k :: k in handoffs && k.scope == s && !before.handoffs[k].ready && k !in open ==>
                    !HandoffBlocked(before, s, before.handoffs[k])
      {
        var k :| k in open;
        if HandoffBlocked(State(), s, handoffs[k]) { return true; }
        handoffs := handoffs[k := handoffs[k].(ready := true)];
        open := open - {k};
      }
      return false;
    }

    method AcquireClaim(p: Principal, s: Scope, expectedVersion: int, owner: string, generation: int,
                        operation: string, leaseSeconds: int, now: int) returns (r: Result<Reply>)
      modifies this
      ensures Commits(CoordinatorModel.AcquireClaim(old(State()), p, garden, s, expectedVersion, owner, generation,
                                                    operation, leaseSeconds, now),
                      old(State()), State(), r)
    {
      hide Repeat, SomeHandoffBlocked, HandoffsReady, ScopeHasUnresolvedEffect;
      var before := State();
      var request := ClaimRequest(s, expectedVersion, owner, generation, leaseSeconds);
      if p.garden != garden || p.member != owner || p.role == Viewer { return Err(PermissionError); }
      if s.name == "" || operation == "" || leaseSeconds < 1 { return Err(ValueError); }
      var repeated := Repeat(State(), p, operation, request);
      if repeated.Repeated? { return Ok(repeated.reply); }
      if repeated.Reused? { return Err(Stale); }
      if s !in authority { return Err(Stale); }
      if authority[s].version != expectedVersion || authority[s].owner != owner
        || authority[s].generation != generation {
        return Err(Stale);
      }
      if owner == "" { return Err(Stale); }
      var blocked := CloseHandoffs(s);
      if blocked {
        Rollback(before);
        return Err(Stale);
      }
      if ScopeHasUnresolvedEffect(effects, s) || (s in claims && claims[s].expires > now) {
        Rollback(before);
        return Err(Stale);
      }
      var fence := authority[s].nextFence + 1;
      var claim := Claim(s, owner, generation, p.installation, operation, fence, now + leaseSeconds);
      authority := authority[s := authority[s].(nextFence := fence)];
      claims := claims[s := claim];
      Remember(p, operation, request, Claimed(claim));
      return Ok(Claimed(claim));
    }

    /** One journal row for the task and one for its projection. */
    method Enqueue(row: OutboxRow)
      modifies `outbox
      ensures outbox == old(outbox) + [row, row.(kind := "git_projection")]
    {
      outbox := outbox + [row];
      outbox := outbox + [row.(kind := "git_projection")];
    }

    /** Inserts the evidence of a transition, unless its key is taken. */
    method Attach(found: Option<string>, operation: string) returns (taken: bool)
      modifies `evidence
      ensures taken <==> found.Some? && found.value in old(evidence)
      ensures evidence == if found.Some? && !taken then old(evidence)[found.value := operation] else old(evidence)
    {
      taken := found.Some? && found.value in evidence;
      if found.Some? && !taken { evidence := evidence[found.value := operation]; }
    }

    /** The updates of a transition whose claim is valid. */
    method Move(p: Principal, c: Claim, request: Request, operation: string) returns (r: Result<Reply>)
      requires request.TransitionRequest? && c.scope in authority
      modifies this
      ensures Commits(Moved(old(State()), p, c, request, operation), old(State()), State(), r)
    {
      var before := State();
      var version := authority[c.scope].version + 1;
      authority := authority[c.scope := authority[c.scope].(version := version)];
      Enqueue(OutboxRow(operation, "task_transition", c.scope.name, version, c.fence, request.newState, Waiting));
      var taken := Attach(request.evidence, operation);
      if taken {
        Rollback(before);
        return Err(IntegrityError);
      }
      Remember(p, operation, request, Transitioned(version));
      return Ok(Transitioned(version));
    }

    method Transition(p: Principal, c: Claim, request: Request, operation: string, now: int) returns (r: Result<Reply>)
      requires request.TransitionRequest? && request.claimOperation == c.operation
      modifies this
      ensures Commits(CoordinatorModel.Transition(old(State()), p, garden, c, request, operation, now),
                      old(State()), State(), r)
    {
      hide Repeat, ClaimError, Moved;
      if request.path != "" && request.revision == "" { return Err(ValueError); }
      var repeated := Repeat(State(), p, operation, request);
      if repeated.Repeated? { return Ok(repeated.reply); }
      if repeated.Reused? { return Err(Stale); }
      if !Validates(State(), p, garden, c, Some(request.expectedVersion), now) { return Err(ClaimError(p, garden)); }
      r := Move(p, c, request, operation);
    }

    method FinishOutbox(p: Principal, id: int, version: int, success: bool) returns (r: Result<()>)
      modifies `outbox
      ensures Commits(CoordinatorModel.FinishOutbox(old(State()), p, garden, id, version, success), old(State()),
                      State(), r)
    {
      if p.garden != garden || p.role != Administrator { return Err(PermissionError); }
      if !(0 <= id < |outbox|) { return Err(MissingKey); }
      var row := outbox[id];
      if row.version != version { return Err(Stale); }
      var task := Scope(Task, row.scope);
      if row.kind == "git_projection" && task in authority && authority[task].version != version { return Err(Stale); }
      outbox := outbox[id := row.(status := if success then Finished else Waiting)];
      return Ok(());
    }

    method SupersedeOutbox(p: Principal, id: int, version: int) returns (r: Result<()>)
      modifies `outbox
      ensures Commits(CoordinatorModel.SupersedeOutbox(old(State()), p, garden, id, version), old(State()), State(), r)
    {
      if p.garden != garden || p.role != Administrator { return Err(PermissionError); }
      if !(0 <= id < |outbox|) { return Err(MissingKey); }
      if outbox[id].version != version { return Err(Stale); }
      outbox := outbox[id := outbox[id].(status := Superseded)];
      return Ok(());
    }

    method BeginEffect(p: Principal, c: Claim, request: Request, operation: string, expectedVersion: Option<int>,
                       now: int)
      returns (r: Result<Reply>)
      requires request.EffectRequest?
      modifies this
      ensures Commits(CoordinatorModel.BeginEffect(old(State()), p, garden, c, request, operation, expectedVersion,
                                                   now),
                      old(State()), State(), r)
    {
      var repeated := Repeat(State(), p, operation, request);
      if repeated.Repeated? { return Ok(repeated.reply); }
      if repeated.Reused? { return Err(Stale); }
      if !Validates(State(), p, garden, c, expectedVersion, now) { return Err(ClaimError(p, garden)); }
      if request.key in effects && Unresolved(effects[request.key]) { return Err(Stale); }
      var effect := Effect(operation, p.member, p.installation, c.scope, c.generation, c.fence,
                           request.credential, request.precondition, request.request, Pending, "{}");
      effects := effects[request.key := effect];
      Remember(p, operation, request, EffectPending(operation));
      return Ok(EffectPending(operation));
    }

    /** Looks the row up by its operation id, then resolves it. */
    method FinishEffect(p: Principal, operation: string, outcome: EffectStatus, result: string)
      returns (r: Result<()>, ghost selected: Option<EffectKey>)
      modifies `effects
      ensures selected.Some? ==> HasEffect(old(State()), selected.value, operation)
      ensures selected.None? ==> forall k :: !HasEffect(old(State()), k, operation)
      ensures Commits(CoordinatorModel.FinishEffect(old(State()), p, garden, selected, outcome, result), old(State()),
                      State(), r)
    {
      var found: Option<EffectKey> := None;
      var todo := effects.Keys;
      while todo != {} && found.None?
        invariant todo <= effects.Keys
        invariant found.Some? ==> HasEffect(State(), found.value, operation)
        invariant found.None? ==> forall k :: k in effects && k !in todo ==> effects[k].operation != operation
      {
        var k :| k in todo;
        if effects[k].operation == operation { found := Some(k); }
        todo := todo - {k};
      }
      selected := found;
      if p.garden != garden { return Err(PermissionError), selected; }
      if outcome == Pending { return Err(ValueError), selected; }
      if found.None? { return Err(PermissionError), selected; }
      var row := effects[found.value];
      if p.role != Administrator && (row.actor != p.member || row.installation != p.installation) {
        return Err(PermissionError), selected;
      }
      if row.status == Succeeded || row.status == Failed || (row.status == Unknown && outcome == Unknown) {
        return if row.status == outcome && row.result == result then Ok(()) else Err(Stale), selected;
      }
      effects := effects[found.value := row.(status := outcome, result := result)];
      return Ok(()), selected;
    }

    /** `named` is the installation of a requested cancellation for this scope and fence, if any. */
    method AcknowledgeCancellation(p: Principal, s: Scope, fence: int)
      returns (r: Result<()>, ghost named: Option<string>)
      modifies `cancellations
      ensures named.Some? ==>
                CancelKey(s, named.value, fence) in old(cancellations)
                  && !old(cancellations)[CancelKey(s, named.value, fence)]
      ensures named.None? ==> forall k :: k in old(cancellations) && k.scope == s && k.fence == fence ==>
                old(cancellations)[k]
      ensures Commits(CoordinatorModel.AcknowledgeCancellation(old(State()), p, garden, s, fence, named), old(State()),
                      State(), r)
    {
      var rows := set k | k in cancellations && k.scope == s && k.fence == fence && !cancellations[k];
      var fetched: Option<string> := None;
      if rows != {} {
        var k :| k in rows;
        assert k == CancelKey(s, k.installation, fence);
        fetched := Some(k.installation);
      } else {
        forall k | k in cancellations && k.scope == s && k.fence == fence ensures cancellations[k] {
          assert k !in rows;
        }
      }
      named := fetched;
      if p.garden != garden { return Err(PermissionError), named; }
      var installation := if p.role == Administrator && fetched.Some? then fetched.value else p.installation;
      var key := CancelKey(s, installation, fence);
      if key !in cancellations || cancellations[key] { return Err(Stale), named; }
      cancellations := cancellations[key := true];
      return Ok(()), named;
    }

    /** SELECT SUM over the active rows of one pool. */
    method ActiveTotals(pool: string) returns (units: int, spend: int)
      ensures units == ActiveUnits(reservations.rows, pool) && spend == ActiveSpend(reservations.rows, pool)
    {
      units, spend := 0, 0;
      var rows := reservations.rows;
      for i := 0 to |rows|
        invariant units == ActiveUnits(rows[..i], pool) && spend == ActiveSpend(rows[..i], pool)
      {
        assert rows[..i+1][..i] == rows[..i];
        if rows[i].active && rows[i].pool == pool {
          units := units + rows[i].units;
          spend := spend + rows[i].spend;
        }
      }
      assert rows[..|rows|] == rows;
    }

    method SetReservationPool(p: Principal, pool: string, units: int, spend: int) returns (r: Result<bool>)
      modifies `reservations
      ensures Commits(CoordinatorModel.SetReservationPool(old(State()), p, garden, pool, units, spend), old(State()),
                      State(), r)
    {
      if p.garden != garden || p.role != Administrator { return Err(PermissionError); }
      if pool == "" || units < 0 || spend < 0 { return Err(ValueError); }
      var activeUnits, activeSpend := ActiveTotals(pool);
      if activeUnits > units || activeSpend > spend { return Err(Stale); }
      reservations := reservations.(pools := reservations.pools[pool := Limits(units, spend)]);
      return Ok(true);
    }

    /** The shared body of both kinds of reservation. */
    method AddReservation(p: Principal, pool: string, operation: string, units: int, spend: int, requested: Requested)
      returns (r: Result<bool>)
      modifies `reservations
      ensures Commits(Reservation(old(State()), Reserve(old(reservations), pool, operation, p.member, p.installation,
                                                        units, spend, requested)), old(State()), State(), r)
    {
      if units < 0 || spend < 0 { return Err(PermissionError); }
      var found := Find(reservations.rows, pool, operation);
      if found.Some? {
        var row := reservations.rows[found.value];
        if row.actor != p.member || row.installation != p.installation || row.units != units || row.spend != spend {
          return Err(Stale);
        }
        return Ok(row.active);
      }
      if pool !in reservations.pools { return Err(Stale); }
      var limits := reservations.pools[pool];
      if !Expects(requested, limits) { return Err(Stale); }
      var activeUnits, activeSpend := ActiveTotals(pool);
      if activeUnits + units > limits.units || activeSpend + spend > limits.spend { return Err(Stale); }
      reservations := reservations.(rows := reservations.rows + [Row(pool, operation, p.member, p.installation, units,
                                                                     spend, true)]);
      return Ok(true);
    }

    method ReserveShared(p: Principal, pool: string, operation: string, units: int, spend: int, requested: Requested)
      returns (r: Result<bool>)
      modifies `reservations
      ensures Commits(CoordinatorModel.ReserveShared(old(State()), p, garden, pool, operation, units, spend, requested),
                      old(State()), State(), r)
    {
      if p.garden != garden || p.role == Viewer || HasPrefix(pool, "phase:") { return Err(PermissionError); }
      if HasPrefix(pool, "global:") && p.role != Administrator { return Err(PermissionError); }
      r := AddReservation(p, pool, operation, units, spend, requested);
    }

    method ReservePhase(p: Principal, c: Claim, pool: string, operation: string, units: int, spend: int,
                        requested: Requested, now: int) returns (r: Result<bool>)
      modifies `reservations
      ensures Commits(CoordinatorModel.ReservePhase(old(State()), p, garden, c, pool, operation, units, spend,
                                                    requested, now),
                      old(State()), State(), r)
    {
      if c.scope.kind != Phase || p.garden != garden || p.role == Viewer || units < 0 || spend < 0 {
        return Err(PermissionError);
      }
      if !Validates(State(), p, garden, c, None, now) { return Err(Stale); }
      r := AddReservation(p, "phase:" + c.scope.name + ":" + pool, operation, units, spend, requested);
    }

    method ReleaseReservation(p: Principal, pool: string, operation: string) returns (r: Result<bool>)
      modifies `reservations
      ensures Commits(CoordinatorModel.ReleaseReservation(old(State()), p, garden, pool, operation), old(State()),
                      State(), r)
    {
      if p.garden != garden { return Err(PermissionError); }
      var found := Find(reservations.rows, pool, operation);
      if found.None? { return Err(Stale); }
      var row := reservations.rows[found.value];
      if p.role != Administrator && (row.actor != p.member || row.installation != p.installation) {
        return Err(PermissionError);
      }
      reservations := reservations.(rows := reservations.rows[found.value := row.(active := false)]);
      return Ok(false);
    }
  }
}
