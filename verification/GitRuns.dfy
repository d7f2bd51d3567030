/** Handoffs over whole runs, and exactly when a rewritten permit breaks them. */
module GitRuns {
  import opened Options
  import opened GitState
  import opened GitSafety
  import opened GitHandoffs

  /** Every request of the run is disciplined in the state it meets. */
  ghost predicate DisciplinedRun(w: World, requests: seq<Request>) {
    forall i {:trigger requests[i]} :: 0 <= i < |requests| ==> Disciplined(Run(w, requests[..i]).state, requests[i])
  }

  lemma EmptyIsSettled()
    ensures Inv(EMPTY) && Settled(EMPTY)
  {
  }

  lemma StepIsOrderly(w: World, r: Request)
    requires Inv(w.state) && Settled(w.state) && Disciplined(w.state, r)
    ensures Inv(Step(w, r).state) && Orderly(w.state, Step(w, r).state)
  {
    hide Inv, Settled, Disciplined, Perform, Blockers;
    PerformKeeps(w.sequence, w.state, r);
    if Perform(w.sequence, w.state, r).Some? {
      PerformIsOrderly(w.sequence, w.state, r);
    }
  }

  lemma Shorter(w: World, requests: seq<Request>)
    requires DisciplinedRun(w, requests) && requests != []
    ensures DisciplinedRun(w, requests[..|requests|-1])
    ensures Disciplined(Run(w, requests[..|requests|-1]).state, requests[|requests|-1])
  {
    hide Disciplined, Run;
    var last := |requests| - 1;
    forall i | 0 <= i < last ensures Disciplined(Run(w, requests[..last][..i]).state, requests[..last][i]) {
      assert requests[..last][..i] == requests[..i];
    }
  }

  lemma NoRequests(w: World)
    ensures Run(w, []) == w && DisciplinedRun(w, [])
  {
  }

  lemma Longer(w: World, rest: seq<Request>, r: Request)
    requires DisciplinedRun(w, rest) && Disciplined(Run(w, rest).state, r)
    ensures DisciplinedRun(w, rest + [r]) && Run(w, rest + [r]) == Step(Run(w, rest), r)
  {
    hide Disciplined, Step;
    var all := rest + [r];
    assert all[..|rest|] == rest;
    forall i | 0 <= i < |all| ensures Disciplined(Run(w, all[..i]).state, all[i]) {
      assert all[..i] == if i < |rest| then rest[..i] else rest;
    }
  }

  lemma {:induction false} SettledStays(w: World, requests: seq<Request>)
    requires Inv(w.state) && Settled(w.state) && DisciplinedRun(w, requests)
    ensures Inv(Run(w, requests).state) && Settled(Run(w, requests).state)
  {
    hide Inv, Settled, Step, DisciplinedRun;
    if requests != [] {
      Shorter(w, requests);
      SettledStays(w, requests[..|requests|-1]);
      StepIsOrderly(Run(w, requests[..|requests|-1]), requests[|requests|-1]);
    }
  }

  /** In every state that disciplined clients reach, a handoff that is stop-acknowledged or externally
      fenced has no blockers, and each open effect still has the claim it was admitted under. */
  lemma AcknowledgedStaysClear(requests: seq<Request>, k: string)
    requires DisciplinedRun(BIRTH, requests)
    requires k in Run(BIRTH, requests).state.handoffs && Flagged(Run(BIRTH, requests).state.handoffs[k])
    ensures Blockers(Run(BIRTH, requests).state, k) == {}
  {
    hide Inv, DisciplinedRun, Run, ClaimsDistinct, EffectsClaimed, Blockers;
    EmptyIsSettled();
    SettledStays(BIRTH, requests);
  }

  /** While an entity drains its blockers only go. */
  lemma {:induction false} DrainingOnlySettles(past: seq<Request>, requests: seq<Request>, k: string)
    requires DisciplinedRun(BIRTH, past) && DisciplinedRun(Run(BIRTH, past), requests)
    requires forall i {:trigger requests[..i]} :: 0 <= i <= |requests| ==>
               k in Run(Run(BIRTH, past), requests[..i]).state.entities
               && IsDraining(Run(Run(BIRTH, past), requests[..i]).state.entities[k])
    ensures Blockers(Run(Run(BIRTH, past), requests).state, k) <= Blockers(Run(BIRTH, past).state, k)
    decreases |requests|
  {
    hide Inv, Settled, DisciplinedRun, Step, Blockers, MovesOnlyClear, EffectsOnlyResolve, IsDraining;
    var w := Run(BIRTH, past);
    if requests != [] {
      var last := |requests| - 1;
      Shorter(w, requests);
      forall i | 0 <= i <= last
        ensures k in Run(w, requests[..last][..i]).state.entities
                && IsDraining(Run(w, requests[..last][..i]).state.entities[k])
      {
        assert requests[..last][..i] == requests[..i];
      }
      DrainingOnlySettles(past, requests[..last], k);
      EmptyIsSettled();
      SettledStays(BIRTH, past);
      SettledStays(w, requests[..last]);
      StepIsOrderly(Run(w, requests[..last]), requests[last]);
    }
  }

  /** While an effect stays open, its entity keeps owner, generation and the effect's claim. */
  lemma {:induction false} OpenEffectPins(past: seq<Request>, requests: seq<Request>, e: string)
    requires DisciplinedRun(BIRTH, past) && DisciplinedRun(Run(BIRTH, past), requests)
    requires e in Run(BIRTH, past).state.effects
    ensures var s, after := Run(BIRTH, past).state, Run(Run(BIRTH, past), requests).state;
            SameEffect(s, after, e)
              && (Unresolved(after.effects[e]) ==> Unresolved(s.effects[e]) && Pinned(s, after, e))
    decreases |requests|
  {
    hide Inv, Settled, DisciplinedRun, Step, Blockers, Unresolved, Pinned, Orderly;
    var w := Run(BIRTH, past);
    EmptyIsSettled();
    SettledStays(BIRTH, past);
    if requests != [] {
      var last := |requests| - 1;
      Shorter(w, requests);
      OpenEffectPins(past, requests[..last], e);
      SettledStays(w, requests[..last]);
      StepIsOrderly(Run(w, requests[..last]), requests[last]);
      StepPins(w.state, Run(w, requests[..last]).state, Run(w, requests).state, e);
    } else {
      PinnedAtFirst(w.state, e);
    }
  }

  predicate SameEffect(s: State, after: State, e: string) {
    && e in s.effects && e in after.effects
    && after.effects[e].scope == s.effects[e].scope && after.effects[e].claim == s.effects[e].claim
  }

  /** The entity of the effect has the owner, generation and claim it had. */
  predicate Pinned(s: State, after: State, e: string) {
    && e in s.effects && s.effects[e].scope.Some?
    && var k := s.effects[e].scope.value;
       && k in s.entities && k in after.entities
       && after.entities[k].owner == s.entities[k].owner && after.entities[k].generation == s.entities[k].generation
       && k in after.claims && after.claims[k].operation == s.effects[e].claim
  }

  lemma PinnedAtFirst(s: State, e: string)
    requires Inv(s) && Settled(s) && e in s.effects
    ensures Unresolved(s.effects[e]) ==> Pinned(s, s, e)
  {
    assert EffectClaimed(s.claims, s.effects[e]);
    if Unresolved(s.effects[e]) {
      assert ClaimHolds(s.entities, s.members, s.installations, s.effects[e].scope.value,
                        s.claims[s.effects[e].scope.value]);
    }
  }

  lemma StepPins(s: State, middle: State, after: State, e: string)
    requires Settled(middle) && Orderly(middle, after) && SameEffect(s, middle, e)
    requires Unresolved(middle.effects[e]) ==> Unresolved(s.effects[e]) && Pinned(s, middle, e)
    ensures SameEffect(s, after, e)
            && (Unresolved(after.effects[e]) ==> Unresolved(s.effects[e]) && Pinned(s, after, e))
  {
    hide Inv, Blockers, FlagsClear;
    assert SameEffect(s, after, e);
    if Unresolved(after.effects[e]) {
      var k := s.effects[e].scope.value;
      assert EffectBlocks(middle, e, k);
      BlockerCounts(middle, e, k);
      assert Blockers(middle, k) != {};
      assert EffectClaimed(after.claims, after.effects[e]);
      assert after.entities[k].owner == middle.entities[k].owner;
    }
  }

  lemma BlockerCounts(s: State, e: string, k: string)
    requires EffectBlocks(s, e, k)
    ensures e in Blockers(s, k)
  {
  }

  /** A generation has one owner: as long as the generation stands, so does the owner, in every run. */
  lemma {:induction false} GenerationNamesOwner(past: seq<Request>, requests: seq<Request>, k: string)
    requires k in Run(BIRTH, past).state.entities
    ensures var e, s := Run(BIRTH, past).state.entities[k], Run(Run(BIRTH, past), requests).state;
            && k in s.entities && Generation(s.entities[k]) >= Generation(e)
            && (Generation(s.entities[k]) == Generation(e) ==> s.entities[k].owner == e.owner)
    decreases |requests|
  {
    hide Inv, Perform;
    if requests != [] {
      var last := |requests| - 1;
      var w := Run(Run(BIRTH, past), requests[..last]);
      GenerationNamesOwner(past, requests[..last], k);
      RunsKeepInvFrom(past, requests[..last]);
      PerformKeeps(w.sequence, w.state, requests[last]);
      assert AuthorityMoves(w.state, Step(w, requests[last]).state, k);
    }
  }

  lemma {:induction false} RunsKeepInvFrom(past: seq<Request>, requests: seq<Request>)
    ensures Inv(Run(Run(BIRTH, past), requests).state)
    decreases |requests|
  {
    hide Inv, Perform;
    if requests == [] {
      RunsKeepInv(past);
    } else {
      var w := Run(Run(BIRTH, past), requests[..|requests|-1]);
      RunsKeepInvFrom(past, requests[..|requests|-1]);
      PerformKeeps(w.sequence, w.state, requests[|requests|-1]);
    }
  }

  // ---- rewriting a permit without its status ------------------------------------------------

  predicate RowSettles(row: Rows<EffectRow>, p: string) {
    row.key == p && row.row.Some? && (row.row.value.outcome == Some(Succeeded) || row.row.value.outcome == Some(Failed))
  }

  /** The request rewrites a closed permit of the entity's claim without its status, and nothing
      terminal is recorded under the permit or comes with the request. */
  ghost predicate Reopens(s: State, c: Changes, k: string, p: string) {
    && p in s.permits && !StatusOpen(s.permits[p])
    && k in s.claims && s.permits[p].claim == s.claims[k].operation
    && OutcomeOpen(s.effects, p) && !EffectBlocks(s, p, k)
    && (exists i {:trigger c.permits[i]} :: 0 <= i < |c.permits| && DropsStatus(c.permits[i], p))
    && (forall i {:trigger c.effects[i]} :: 0 <= i < |c.effects| ==> !RowSettles(c.effects[i], p))
  }

  /** After the effect rows an outcome is open exactly if it was and no row settles it. */
  lemma {:induction false} RowsLeaveOpen(entities: map<string, Entity>, index: map<string, string>,
                                         effects: map<string, Effect>, actor: string, installation: string,
                                         rows: seq<Rows<EffectRow>>, n: nat, p: string)
    requires n <= |rows|
    ensures var after := AdmitEffects(entities, index, effects, actor, installation, rows[..n]);
            after.Some? ==>
              (OutcomeOpen(after.value, p) <==>
                 OutcomeOpen(effects, p) && forall i {:trigger rows[i]} :: 0 <= i < n ==> !RowSettles(rows[i], p))
  {
    hide LeadsToDraining;
    if n > 0 {
      RowsLeaveOpen(entities, index, effects, actor, installation, rows, n - 1, p);
      assert rows[..n][..n-1] == rows[..n-1];
    }
  }

  lemma ApplyLeavesOpen(s: State, r: Request, p: string)
    requires r.Apply? && ApplyChanges(s, r).Some?
    ensures var rows := r.changes.effects;
            OutcomeOpen(ApplyChanges(s, r).value.effects, p) <==>
              OutcomeOpen(s.effects, p) && forall i {:trigger rows[i]} :: 0 <= i < |rows| ==> !RowSettles(rows[i], p)
  {
    hide PatchEntities, AdmitClaims, AdmitPermits, AdmitEffects, IsIndex, OwnerPatchBlocked, AuthorityDrains,
      ActiveInstallation, VersionsMatch, OutcomeOpen, RowSettles;
    var after, rows := ApplyChanges(s, r).value, r.changes.effects;
    assert rows[..|rows|] == rows;
    RowsLeaveOpen(after.entities, r.index, s.effects, r.actor, r.installation, rows, |rows|, p);
  }

  /** An apply adds a blocker to a draining entity exactly if it reopens a permit: the stored row is
      replaced by the request's row, and a row without a status counts as pending. */
  lemma GrowsExactlyIfReopened(s: State, r: Request, k: string)
    requires Inv(s) && Settled(s) && r.Apply? && Coherent(s, r) && ApplyChanges(s, r).Some?
    requires k in s.entities && IsDraining(s.entities[k])
    ensures !(Blockers(ApplyChanges(s, r).value, k) <= Blockers(s, k)) <==> exists p :: Reopens(s, r.changes, k, p)
  {
    hide Inv, ApplyChanges, Coherent, Admits, Reopens, Settled;
    var after := ApplyChanges(s, r).value;
    DistinctOf(s);
    ApplyAdmits(s, r);
    forall p ensures Reopens(s, r.changes, k, p) <==> p in Blockers(after, k) && p !in Blockers(s, k) {
      OneReopens(s, r, k, p);
    }
  }

  lemma DistinctOf(s: State)
    requires Settled(s)
    ensures ClaimsDistinct(s.claims)
  {
  }

  lemma OneReopens(s: State, r: Request, k: string, p: string)
    requires r.Apply? && ApplyChanges(s, r).Some? && Admits(s, ApplyChanges(s, r).value, r.index)
    requires k in s.entities && IsDraining(s.entities[k])
    ensures var after := ApplyChanges(s, r).value;
            Reopens(s, r.changes, k, p) <==> p in Blockers(after, k) && p !in Blockers(s, k)
  {
    var after := ApplyChanges(s, r).value;
    AdmittedPermitBlocks(s, after, r.index, k, p);
    AdmittedEffectBlocks(s, after, r.index, k, p);
    if p in s.permits {
      StoredReopens(s, r, p);
    }
    ApplyLeavesOpen(s, r, p);
    AdmittedClaimStays(s, after, r.index, k, p);
    InBlockers(s, k, p);
    InBlockers(after, k, p);
    hide ApplyChanges, Admits, Blockers;
  }

  lemma InBlockers(s: State, k: string, p: string)
    ensures p in Blockers(s, k) <==> PermitBlocks(s, p, k) || EffectBlocks(s, p, k)
  {
  }

  lemma AdmittedClaimStays(s: State, after: State, index: map<string, string>, k: string, p: string)
    requires Admits(s, after, index) && k in s.entities && IsDraining(s.entities[k])
    ensures k in s.claims ==> k in after.claims && after.claims[k] == s.claims[k]
    ensures k in after.claims ==> k in s.claims
    ensures p in s.permits ==> p in after.permits && after.permits[p].claim == s.permits[p].claim
    ensures EffectBlocks(s, p, k) && p in after.effects && !EffectBlocks(after, p, k) ==> !OutcomeOpen(after.effects, p)
    ensures p in s.effects ==> p in after.effects
  {
    assert SameAuthority(s.entities[k], after.entities[k]);
  }

  lemma StoredReopens(s: State, r: Request, p: string)
    requires r.Apply? && ApplyChanges(s, r).Some? && p in s.permits
    ensures var after, rows := ApplyChanges(s, r).value, r.changes.permits;
            && p in after.permits
            && (StatusOpen(after.permits[p]) <==>
                  StatusOpen(s.permits[p]) || exists i {:trigger rows[i]} :: 0 <= i < |rows| && DropsStatus(rows[i], p))
  {
    hide PatchEntities, AdmitClaims, AdmitPermits, AdmitEffects, IsIndex, OwnerPatchBlocked, AuthorityDrains,
      ActiveInstallation, VersionsMatch, StatusOpen, DropsStatus;
    var after, rows := ApplyChanges(s, r).value, r.changes.permits;
    assert rows[..|rows|] == rows;
    RowsReopen(after.entities, r.index, s.permits, r.actor, r.installation, rows, |rows|, p);
  }

  const TASK := Entity(Some("task"), Some("t"), Some("garden"), Some("ann"), Some(1), Some(true), Some(""), Some(2))

  /** A draining task whose only permit was fenced from outside. */
  const FENCED := State(
    map["ann" := Member(true, Administrative, true, {})], map["laptop" := "ann"], map[], map["task:t" := TASK],
    map["task:t" := Claim("c", Some("task"), Some("t"), Some("ann"), Some(1), "ann", "laptop")],
    map["run" := Permit("c", Some(Fenced), "ann", "laptop")], map[],
    map["task:t" := Handoff("ann", 1, "laptop", "", true, false, true)], map[], {})

  const REWRITE := Apply("ann", "laptop", map[],
                         Changes([], [], [Rows("run", Some(PermitRow(Some("c"), None, None, None)))], []),
                         map["c" := "task:t"])

  /** The fence does not hold: the fenced installation writes its permit again without a status, the
      permit is pending again, and the handoff that had been cleared is blocked. */
  lemma FencedPermitReopens()
    ensures Run(BIRTH, FENCING).state == FENCED
    ensures Inv(FENCED) && Settled(FENCED) && Blockers(FENCED, "task:t") == {}
    ensures ApplyChanges(FENCED, REWRITE).Some?
    ensures var after := ApplyChanges(FENCED, REWRITE).value;
            after.handoffs["task:t"].externalFence && "run" in Blockers(after, "task:t")
  {
    FencedIsReachable();
    FencedIsSettled();
    RewriteIsAccepted();
    hide Run, ApplyChanges;
  }

  lemma FencedIsSettled()
    ensures Inv(FENCED) && Settled(FENCED) && Blockers(FENCED, "task:t") == {}
  {
    assert ClaimHolds(FENCED.entities, FENCED.members, FENCED.installations, "task:t", FENCED.claims["task:t"]);
  }

  lemma RewriteIsAccepted()
    ensures ApplyChanges(FENCED, REWRITE) ==
            Some(FENCED.(permits := map["run" := Permit("c", None, "ann", "laptop")]))
  {
    var rows := REWRITE.changes.permits;
    assert rows[..0] == [];
    assert AdmitPermits(FENCED.entities, REWRITE.index, FENCED.permits, "ann", "laptop", []) == Some(FENCED.permits);
    assert FENCED.permits["run" := Permit("c", None, "ann", "laptop")] ==
      map["run" := Permit("c", None, "ann", "laptop")];
    assert AdmitPermit(FENCED.entities, REWRITE.index, FENCED.permits, "ann", "laptop", "run", rows[0].row)
        == Some(map["run" := Permit("c", None, "ann", "laptop")]);
  }

  // ---- the fenced state is reachable --------------------------------------------------------

  lemma OneMore(requests: seq<Request>, r: Request, w: World, state: State)
    requires Run(BIRTH, requests) == w && Perform(w.sequence, w.state, r).Some?
             && Perform(w.sequence, w.state, r).value.0 == state
    ensures Run(BIRTH, requests + [r]) == World(w.sequence + 1, state)
  {
    hide Perform;
    assert (requests + [r])[..|requests|] == requests;
  }

  const OPEN_TASK := TASK.(draining := None, pending := None, version := Some(1))

  const BOOT := Bootstrap(FENCED.members, FENCED.installations, map[], map["task:t" := OPEN_TASK])

  const CLAIM := Apply("ann", "laptop", map[],
                       Changes([],
                               [Rows("task:t",
                                     Some(ClaimRow("c", Some("task"), Some("t"), Some("ann"), Some(1), None, None)))],
                                     [], []),
                       map["c" := "task:t"])

  /** The run that fences: authority, a claim, a permit, a handoff, the fence. */
  const FENCING := [BOOT, CLAIM, REWRITE, BeginHandoff("ann", "laptop", "task:t", 1, ""),
                    RecordFence("ann", "laptop", "task:t", true, true)]

  const OWNED := EMPTY.(members := FENCED.members, installations := FENCED.installations,
                        entities := map["task:t" := OPEN_TASK])

  const CLAIMED := OWNED.(claims := FENCED.claims)

  const PERMITTED := CLAIMED.(permits := map["run" := Permit("c", None, "ann", "laptop")])

  const STAGED := PERMITTED.(entities := map["task:t" := TASK],
                             handoffs := map["task:t" := FENCED.handoffs["task:t"].(ready := false,
                                                                                    externalFence := false)])

  lemma Boots()
    ensures Perform(0, EMPTY, BOOT).Some? && Perform(0, EMPTY, BOOT).value.0 == OWNED
  {
    assert EMPTY.revoked + map[] == EMPTY.revoked;
  }

  lemma Claims()
    ensures ApplyChanges(OWNED, CLAIM) == Some(CLAIMED)
  {
    var rows := CLAIM.changes.claims;
    assert rows[..0] == [];
    assert AdmitClaims(OWNED.entities, OWNED.claims, "ann", "laptop", []) == Some(OWNED.claims);
    assert AdmitClaim(OWNED.entities, OWNED.claims, "ann", "laptop", "task:t", rows[0].row) == Some(FENCED.claims);
  }

  lemma Permits()
    ensures ApplyChanges(CLAIMED, REWRITE) == Some(PERMITTED)
  {
    var rows := REWRITE.changes.permits;
    assert rows[..0] == [];
    assert AdmitPermits(CLAIMED.entities, REWRITE.index, CLAIMED.permits, "ann", "laptop", []) == Some(CLAIMED.permits);
    assert AdmitPermit(CLAIMED.entities, REWRITE.index, CLAIMED.permits, "ann", "laptop", "run", rows[0].row) ==
      Some(PERMITTED.permits);
  }

  lemma Drains()
    ensures BeginHandoffOf(PERMITTED, FENCING[3]).Some? && BeginHandoffOf(PERMITTED, FENCING[3]).value.0 == STAGED
  {
    hide Blockers;
    var h := HandoffFrom(PERMITTED, "task:t", "").(ready := false, stopAcknowledged := false);
    assert PERMITTED.handoffs["task:t" := h] == STAGED.handoffs;
    assert PERMITTED.entities["task:t" := Drained(OPEN_TASK, "")] == STAGED.entities;
  }

  lemma Fences()
    ensures RecordFenceOf(STAGED, FENCING[4]).Some? && RecordFenceOf(STAGED, FENCING[4]).value.0 == FENCED
  {
    assert FencePermits(STAGED, "task:t") == FENCED.permits;
    assert STAGED.handoffs["task:t" := STAGED.handoffs["task:t"].(externalFence := true, ready := true)] ==
      FENCED.handoffs;
  }

  lemma FencedIsReachable()
    ensures Run(BIRTH, FENCING) == World(5, FENCED)
  {
    Boots();
    Claims();
    Permits();
    Drains();
    Fences();
    hide Run, BootstrapOf, ApplyChanges, BeginHandoffOf, RecordFenceOf;
    var f := FENCING;
    NothingYet();
    OneMore([], f[0], BIRTH, OWNED);
    OneMore([] + [f[0]], f[1], World(1, OWNED), CLAIMED);
    OneMore([] + [f[0]] + [f[1]], f[2], World(2, CLAIMED), PERMITTED);
    OneMore([] + [f[0]] + [f[1]] + [f[2]], f[3], World(3, PERMITTED), STAGED);
    OneMore([] + [f[0]] + [f[1]] + [f[2]] + [f[3]], f[4], World(4, STAGED), FENCED);
    assert [] + [f[0]] + [f[1]] + [f[2]] + [f[3]] + [f[4]] == f;
  }

  lemma NothingYet()
    ensures Run(BIRTH, []) == BIRTH
  {
  }
}
