/** An administrator can always bring a reassignment to its end: whatever effects, cancellations and projections are
    open, there are calls after which the new owner holds the claim. */
module CoordinatorProgress {
  import opened Options
  import opened CoordinatorModel
  import opened CoordinatorSafety
  import opened CoordinatorRuns
  import opened CoordinatorAuthority

  lemma {:induction false} RunInTwo(w: World, garden: string, first: seq<Call>, rest: seq<Call>)
    ensures Run(w, garden, first + rest) == Run(Run(w, garden, first), garden, rest)
    decreases |rest|
  {
    hide Step;
    if rest == [] {
      assert first + rest == first;
    } else {
      var n := |rest| - 1;
      assert (first + rest)[..|first|+n] == first + rest[..n] && (first + rest)[|first|+n] == rest[n];
      RunInTwo(w, garden, first, rest[..n]);
    }
  }

  lemma RunOne(w: World, garden: string, call: Call)
    ensures Run(w, garden, [call]) == Step(w, garden, call)
  {
    assert [call][..0] == [];
  }

  predicate Administers(garden: string, p: Principal) { p.garden == garden && p.role == Administrator }

  // ---- open effects -------------------------------------------------------------------------

  function OpenEffects(db: Db, s: Scope): set<EffectKey> {
    set k | k in db.effects && db.effects[k].scope == s && Unresolved(db.effects[k])
  }

  lemma ResolvesOne(w: World, garden: string, p: Principal, s: Scope, k: EffectKey)
    requires Administers(garden, p) && k in OpenEffects(w.db, s)
    ensures var after := Step(w, garden, DoFinishEffect(p, Some(k), Failed, "")).db;
            after == w.db.(effects := after.effects) && OpenEffects(after, s) == OpenEffects(w.db, s) - {k}
  {
    var after := Step(w, garden, DoFinishEffect(p, Some(k), Failed, "")).db;
    assert after == w.db.(effects := w.db.effects[k := w.db.effects[k].(status := Failed, result := "")]);
    forall j ensures j in OpenEffects(after, s) <==> j in OpenEffects(w.db, s) - {k} {
    }
  }

  lemma {:induction false} ResolveAll(w: World, garden: string, p: Principal, s: Scope) returns (calls: seq<Call>)
    requires Administers(garden, p)
    ensures var after := Run(w, garden, calls).db;
            after == w.db.(effects := after.effects) && OpenEffects(after, s) == {}
    decreases |OpenEffects(w.db, s)|
  {
    hide Step, OpenEffects;
    calls := [];
    if OpenEffects(w.db, s) != {} {
      var k :| k in OpenEffects(w.db, s);
      var first := DoFinishEffect(p, Some(k), Failed, "");
      ResolvesOne(w, garden, p, s, k);
      var rest := ResolveAll(Step(w, garden, first), garden, p, s);
      RunInTwo(w, garden, [first], rest);
      RunOne(w, garden, first);
      calls := [first] + rest;
    }
  }

  // ---- open cancellations -------------------------------------------------------------------

  function OpenCancellations(db: Db, s: Scope): set<CancelKey> {
    set k | k in db.cancellations && k.scope == s && !db.cancellations[k]
  }

  lemma AcknowledgesOne(w: World, garden: string, p: Principal, s: Scope, k: CancelKey)
    requires Administers(garden, p) && k in OpenCancellations(w.db, s)
    ensures var after := Step(w, garden, DoAcknowledge(p, s, k.fence, Some(k.installation))).db;
            after == w.db.(cancellations := after.cancellations)
            && OpenCancellations(after, s) == OpenCancellations(w.db, s) - {k}
  {
    assert k == CancelKey(s, k.installation, k.fence);
    var after := Step(w, garden, DoAcknowledge(p, s, k.fence, Some(k.installation))).db;
    assert after == w.db.(cancellations := w.db.cancellations[k := true]);
    forall j ensures j in OpenCancellations(after, s) <==> j in OpenCancellations(w.db, s) - {k} {
    }
  }

  lemma {:induction false} AcknowledgeAll(w: World, garden: string, p: Principal, s: Scope) returns (calls: seq<Call>)
    requires Administers(garden, p)
    ensures var after := Run(w, garden, calls).db;
            after == w.db.(cancellations := after.cancellations) && OpenCancellations(after, s) == {}
    decreases |OpenCancellations(w.db, s)|
  {
    hide Step, OpenCancellations;
    calls := [];
    if OpenCancellations(w.db, s) != {} {
      var k :| k in OpenCancellations(w.db, s);
      var first := DoAcknowledge(p, s, k.fence, Some(k.installation));
      AcknowledgesOne(w, garden, p, s, k);
      var rest := AcknowledgeAll(Step(w, garden, first), garden, p, s);
      RunInTwo(w, garden, [first], rest);
      RunOne(w, garden, first);
      calls := [first] + rest;
    }
  }

  // ---- waiting projections ------------------------------------------------------------------

  /** None of the first n journal rows waits. */
  predicate NoneWaits(outbox: seq<OutboxRow>, n: nat) {
    forall i :: 0 <= i < n && i < |outbox| ==> outbox[i].status != Waiting
  }

  lemma SupersedesOne(w: World, garden: string, p: Principal, n: nat)
    requires Administers(garden, p) && n < |w.db.outbox| && NoneWaits(w.db.outbox, n)
    ensures var after := Step(w, garden, DoSupersede(p, n, w.db.outbox[n].version)).db;
            after == w.db.(outbox := after.outbox) && |after.outbox| == |w.db.outbox| && NoneWaits(after.outbox, n + 1)
  {
  }

  lemma {:induction false} SupersedeFrom(w: World, garden: string, p: Principal, n: nat) returns (calls: seq<Call>)
    requires Administers(garden, p) && n <= |w.db.outbox| && NoneWaits(w.db.outbox, n)
    ensures var after := Run(w, garden, calls).db;
            after == w.db.(outbox := after.outbox) && NoneWaits(after.outbox, |after.outbox|)
    decreases |w.db.outbox| - n
  {
    hide Step, NoneWaits;
    calls := [];
    if n < |w.db.outbox| {
      var first := DoSupersede(p, n, w.db.outbox[n].version);
      SupersedesOne(w, garden, p, n);
      var rest := SupersedeFrom(Step(w, garden, first), garden, p, n + 1);
      RunInTwo(w, garden, [first], rest);
      RunOne(w, garden, first);
      calls := [first] + rest;
    }
  }

  // ---- the reassignment and the claim -------------------------------------------------------

  lemma Reassigning(w: World, garden: string, p: Principal, s: Scope, owner: string, generation: int, operation: string)
    requires Administers(garden, p) && s.name != "" && s in w.db.authority && OpenEffects(w.db, s) == {}
    requires w.db.authority[s].generation < generation && operation !in w.db.operations
    ensures var row := w.db.authority[s];
            var after := Step(w, garden, DoSetAuthority(p, s, owner, generation, row.version, operation)).db;
            && s in after.authority && s !in after.claims && after.effects == w.db.effects
            && after.authority[s] == Authority(row.version + 1, owner, generation, row.nextFence)
            && after.operations.Keys == w.db.operations.Keys + {operation}
  {
    hide Reassigned;
    NothingOpen(w.db, s);
    var version := w.db.authority[s].version;
    ReassignedKeepsOperations(w.db, s, owner, generation, version + 1);
    ReassignedRow(w.db, s, owner, generation, version + 1);
  }

  lemma NothingOpen(db: Db, s: Scope)
    requires OpenEffects(db, s) == {}
    ensures !ScopeHasUnresolvedEffect(db.effects, s)
    ensures forall generation :: !OldEffectWaits(db.effects, s, generation)
  {
    forall k | k in db.effects ensures !(db.effects[k].scope == s && Unresolved(db.effects[k])) {
      assert k !in OpenEffects(db, s);
    }
  }

  lemma NothingRequested(db: Db, s: Scope)
    requires OpenCancellations(db, s) == {}
    ensures !CancellationWaits(db.cancellations, s)
  {
    forall k | k in db.cancellations && k.scope == s ensures db.cancellations[k] {
      assert k !in OpenCancellations(db, s);
    }
  }

  /** The stored owner's claim is granted when nothing is open and an earlier lease, if any, has ended. */
  lemma OwnerIsGranted(w: World, garden: string, q: Principal, s: Scope, operation: string, lease: int, now: int)
    requires q.garden == garden && q.role != Viewer && s.name != "" && operation != "" && lease >= 1
    requires s in w.db.authority && w.db.authority[s].owner == q.member && q.member != ""
    requires s in w.db.claims ==> w.db.claims[s].expires <= now
    requires operation !in w.db.operations && OpenEffects(w.db, s) == {} && OpenCancellations(w.db, s) == {}
    requires NoneWaits(w.db.outbox, |w.db.outbox|)
    ensures var row := w.db.authority[s];
            var after := Step(w, garden,
                              DoClaim(q, s, row.version, row.owner, row.generation, operation, lease, now)).db;
            s in after.claims && after.claims[s] ==
              Claim(s, q.member, row.generation, q.installation, operation, row.nextFence + 1, now + lease)
  {
    NothingOpen(w.db, s);
    NothingRequested(w.db, s);
    hide CancellationWaits, OldEffectWaits, ScopeHasUnresolvedEffect, OpenEffects, OpenCancellations, HandoffsReady;
    assert !SomeHandoffBlocked(w.db, s);
  }

  /** From any tables at all: an administrator who wants a stored scope to go to a new owner in a later generation can
      resolve what is open, reassign the scope, acknowledge and supersede what then holds the handoff up, and the
      new owner's claim is granted, under the next fence and for as long as asked. */
  lemma ReassignmentCanComplete(w: World, garden: string, p: Principal, s: Scope, generation: int, operation: string,
                                q: Principal, claim: string, lease: int, now: int) returns (calls: seq<Call>)
    requires Administers(garden, p) && s.name != "" && s in w.db.authority && w.db.authority[s].generation < generation
    requires q.garden == garden && q.role != Viewer && q.member != "" && lease >= 1 && claim != ""
    requires operation !in w.db.operations && claim !in w.db.operations && operation != claim
    ensures var after := Run(w, garden, calls).db;
            && s in after.claims
            && after.claims[s] == Claim(s, q.member, generation, q.installation, claim, w.db.authority[s].nextFence + 1,
                                        now + lease)
            && s in after.authority && after.authority[s].owner == q.member
  {
    hide Step, OpenEffects, OpenCancellations, NoneWaits;
    var resolving := ResolveAll(w, garden, p, s);
    var w1 := Run(w, garden, resolving);
    var reassign := DoSetAuthority(p, s, q.member, generation, w.db.authority[s].version, operation);
    Reassigning(w1, garden, p, s, q.member, generation, operation);
    var w2 := Step(w1, garden, reassign);
    var acknowledging := AcknowledgeAll(w2, garden, p, s);
    var w3 := Run(w2, garden, acknowledging);
    assert NoneWaits(w3.db.outbox, 0) by { NoneYet(w3.db.outbox); }
    var superseding := SupersedeFrom(w3, garden, p, 0);
    var w4 := Run(w3, garden, superseding);
    assert OpenEffects(w4.db, s) == {} && OpenCancellations(w4.db, s) == {} by {
      SameOpen(w1.db, w4.db, s);
      SameRequested(w3.db, w4.db, s);
    }
    OwnerIsGranted(w4, garden, q, s, claim, lease, now);
    var row := w4.db.authority[s];
    var claiming := DoClaim(q, s, row.version, row.owner, row.generation, claim, lease, now);
    ClaimKeepsOwner(w4, garden, claiming, s);
    RunOne(w1, garden, reassign);
    RunOne(w4, garden, claiming);
    RunInTwo(w, garden, resolving, [reassign]);
    RunInTwo(w, garden, resolving + [reassign], acknowledging);
    RunInTwo(w, garden, resolving + [reassign] + acknowledging, superseding);
    RunInTwo(w, garden, resolving + [reassign] + acknowledging + superseding, [claiming]);
    calls := resolving + [reassign] + acknowledging + superseding + [claiming];
  }

  lemma NoneYet(outbox: seq<OutboxRow>)
    ensures NoneWaits(outbox, 0)
  {
  }

  lemma SameOpen(db: Db, after: Db, s: Scope)
    requires db.effects == after.effects
    ensures OpenEffects(after, s) == OpenEffects(db, s)
  {
  }

  lemma SameRequested(db: Db, after: Db, s: Scope)
    requires db.cancellations == after.cancellations
    ensures OpenCancellations(after, s) == OpenCancellations(db, s)
  {
  }

  lemma ClaimKeepsOwner(w: World, garden: string, call: Call, s: Scope)
    requires call.DoClaim? && s in w.db.authority
    ensures var after := Step(w, garden, call).db.authority; s in after && after[s].owner == w.db.authority[s].owner
  {
    hide SomeHandoffBlocked, ScopeHasUnresolvedEffect, HandoffsReady;
  }

  // ---- the holder's work --------------------------------------------------------------------

  lemma HolderTransits(w: World, garden: string, q: Principal, c: Claim, request: Request, operation: string, now: int)
    requires request.TransitionRequest? && request.claimOperation == c.operation
    requires Validates(w.db, q, garden, c, Some(request.expectedVersion), now) && operation !in w.db.operations
    requires request.path == "" || request.revision != ""
    requires request.evidence.Some? ==> request.evidence.value !in w.db.evidence
    ensures var after := Step(w, garden, DoTransition(q, c, request, operation, now)).db;
            && Validates(after, q, garden, c, Some(request.expectedVersion + 1), now)
            && |after.outbox| == |w.db.outbox| + 2 && after.outbox[|w.db.outbox|].payload == request.newState
            && after.operations.Keys == w.db.operations.Keys + {operation} && after.effects == w.db.effects
  {
  }

  lemma HolderBegins(w: World, garden: string, q: Principal, c: Claim, request: Request, operation: string,
                     expected: Option<int>, now: int)
    requires request.EffectRequest? && Validates(w.db, q, garden, c, expected, now) && operation !in w.db.operations
    requires request.key in w.db.effects ==> !Unresolved(w.db.effects[request.key])
    ensures var after := Step(w, garden, DoBeginEffect(q, c, request, operation, expected, now)).db;
            && request.key in after.effects && after.effects[request.key].status == Pending
            && after.effects[request.key].actor == q.member && after.effects[request.key].installation == q.installation
            && after.outbox == w.db.outbox && after.authority == w.db.authority
  {
  }

  lemma HolderReports(w: World, garden: string, q: Principal, k: EffectKey, outcome: EffectStatus, result: string)
    requires q.garden == garden && outcome != Pending && k in w.db.effects && w.db.effects[k].status == Pending
    requires w.db.effects[k].actor == q.member && w.db.effects[k].installation == q.installation
    ensures var after := Step(w, garden, DoFinishEffect(q, Some(k), outcome, result)).db;
            && k in after.effects && after.effects[k].status == outcome && after.effects[k].result == result
            && after.outbox == w.db.outbox && after.authority == w.db.authority
  {
  }

  /** Whoever holds a valid claim can move its scope on, begin a provider effect in the new version and report how it
      ended, and finds all of it stored. */
  lemma HolderCanWork(w: World, garden: string, q: Principal, c: Claim, transition: Request, moving: string,
                      effect: Request, beginning: string, outcome: EffectStatus, result: string, now: int)
    requires transition.TransitionRequest? && transition.claimOperation == c.operation && effect.EffectRequest?
    requires Validates(w.db, q, garden, c, Some(transition.expectedVersion), now)
    requires moving !in w.db.operations && beginning !in w.db.operations && moving != beginning
    requires transition.path == "" || transition.revision != ""
    requires transition.evidence.Some? ==> transition.evidence.value !in w.db.evidence
    requires effect.key in w.db.effects ==> !Unresolved(w.db.effects[effect.key])
    requires outcome != Pending
    ensures var version := transition.expectedVersion + 1;
            var calls := [DoTransition(q, c, transition, moving, now)]
              + [DoBeginEffect(q, c, effect, beginning, Some(version), now)]
              + [DoFinishEffect(q, Some(effect.key), outcome, result)];
            var after := Run(w, garden, calls).db;
            && c.scope in after.authority && after.authority[c.scope].version == version
            && |after.outbox| == |w.db.outbox| + 2 && after.outbox[|w.db.outbox|].payload == transition.newState
            && effect.key in after.effects
            && after.effects[effect.key].status == outcome && after.effects[effect.key].result == result
  {
    var version := transition.expectedVersion + 1;
    var move := DoTransition(q, c, transition, moving, now);
    var begin := DoBeginEffect(q, c, effect, beginning, Some(version), now);
    var finish := DoFinishEffect(q, Some(effect.key), outcome, result);
    HolderTransits(w, garden, q, c, transition, moving, now);
    var w1 := Step(w, garden, move);
    HolderBegins(w1, garden, q, c, effect, beginning, Some(version), now);
    var w2 := Step(w1, garden, begin);
    HolderReports(w2, garden, q, effect.key, outcome, result);
    hide Step, Run;
    RunOne(w, garden, move);
    RunInTwo(w, garden, [move], [begin]);
    RunOne(w1, garden, begin);
    RunInTwo(w, garden, [move] + [begin], [finish]);
    RunOne(w2, garden, finish);
  }
}
