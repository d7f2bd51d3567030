/** Handoffs between clients that keep to the adapter's discipline: what drains only settles, and no
    authority moves while anything of the entity is open. */
module GitHandoffs {
  import opened Options
  import opened GitState
  import opened GitSafety

  // ---- discipline ---------------------------------------------------------------------------

  /** No other claim, stored or requested, carries the operation id of a requested claim. */
  ghost predicate DistinctIds(claims: map<string, Claim>, rows: seq<Rows<ClaimRow>>) {
    && (forall i, k {:trigger rows[i], claims[k]} ::
          0 <= i < |rows| && rows[i].row.Some? && k in claims && k != rows[i].key ==>
          claims[k].operation != rows[i].row.value.operation)
    && (forall i, j {:trigger rows[i], rows[j]} :: 0 <= i < j < |rows| && rows[i].row.Some? && rows[j].row.Some? ==>
          rows[i].row.value.operation != rows[j].row.value.operation)
  }

  /** A new effect is for the entity that its claim covers. */
  ghost predicate EffectsForClaims(effects: map<string, Effect>, index: map<string, string>,
                                   rows: seq<Rows<EffectRow>>) {
    forall i {:trigger rows[i]} :: 0 <= i < |rows| && rows[i].row.Some? && rows[i].key !in effects ==>
      rows[i].row.value.claim.Some? && rows[i].row.value.claim.value in index
      ==> rows[i].row.value.scope == Some(index[rows[i].row.value.claim.value])
  }

  /** A row for a stored permit says the permit's status. */
  ghost predicate StatusesKept(permits: map<string, Permit>, rows: seq<Rows<PermitRow>>) {
    forall i {:trigger rows[i]} :: 0 <= i < |rows| && rows[i].row.Some? && rows[i].key in permits ==>
      rows[i].row.value.status.Some?
  }

  /** The discipline about claims and effects. */
  ghost predicate Coherent(s: State, r: Request) {
    r.Apply? ==>
      && r.installation != ""
      && DistinctIds(s.claims, r.changes.claims)
      && EffectsForClaims(s.effects, r.index, r.changes.effects)
  }

  ghost predicate Disciplined(s: State, r: Request) {
    Coherent(s, r) && (r.Apply? ==> StatusesKept(s.permits, r.changes.permits))
  }

  // ---- the invariant ------------------------------------------------------------------------

  ghost predicate ClaimsDistinct(claims: map<string, Claim>) {
    && (forall k {:trigger claims[k]} :: k in claims ==> claims[k].installation != "")
    && (forall j, k {:trigger claims[j], claims[k]} ::
          j in claims && k in claims && claims[j].operation == claims[k].operation ==> j == k)
  }

  ghost predicate EffectClaimed(claims: map<string, Claim>, e: Effect) {
    Unresolved(e) ==> e.scope.Some? && e.scope.value in claims && claims[e.scope.value].operation == e.claim
  }

  /** The entity of an open effect still has the claim under which the effect was admitted. */
  ghost predicate EffectsClaimed(claims: map<string, Claim>, effects: map<string, Effect>) {
    forall e {:trigger effects[e]} :: e in effects ==> EffectClaimed(claims, effects[e])
  }

  predicate Flagged(h: Handoff) { h.stopAcknowledged || h.externalFence }

  /** Nothing blocks a handoff whose workers acknowledged the stop or were fenced off. */
  ghost predicate FlagsClear(s: State) {
    forall k {:trigger s.handoffs[k]} :: k in s.handoffs && Flagged(s.handoffs[k]) ==> Blockers(s, k) == {}
  }

  ghost predicate Settled(s: State) {
    ClaimsDistinct(s.claims) && EffectsClaimed(s.claims, s.effects) && FlagsClear(s)
  }

  lemma UnclaimedIsClear(s: State, k: string)
    requires EffectsClaimed(s.claims, s.effects) && k !in s.claims
    ensures Blockers(s, k) == {}
  {
    forall e ensures !EffectBlocks(s, e, k) {
      if e in s.effects {
        assert EffectClaimed(s.claims, s.effects[e]);
      }
    }
  }

  // ---- transactions that open nothing -------------------------------------------------------

  predicate SubClaims(before: map<string, Claim>, after: map<string, Claim>) {
    forall k {:trigger after[k]} :: k in after ==> k in before && after[k] == before[k]
  }

  predicate PermitsSettle(before: map<string, Permit>, after: map<string, Permit>) {
    forall p {:trigger after[p]} :: p in after ==>
      p in before && after[p].claim == before[p].claim && (StatusOpen(after[p]) ==> StatusOpen(before[p]))
  }

  predicate EffectsSettle(before: map<string, Effect>, after: map<string, Effect>) {
    && (forall e {:trigger after[e]} :: e in after ==>
          && e in before && after[e].claim == before[e].claim && after[e].scope == before[e].scope
          && (Unresolved(after[e]) ==> Unresolved(before[e])))
    && before.Keys == after.Keys
  }

  /** Claims are only released, permits only closed and effects only resolved. */
  predicate Settles(s: State, after: State) {
    SubClaims(s.claims, after.claims) && PermitsSettle(s.permits, after.permits)
      && EffectsSettle(s.effects, after.effects)
  }

  lemma SettlingShrinks(s: State, after: State, k: string)
    requires Settles(s, after)
    ensures Blockers(after, k) <= Blockers(s, k)
  {
    forall p | PermitBlocks(after, p, k) ensures PermitBlocks(s, p, k) {
    }
    forall e | EffectBlocks(after, e, k) ensures EffectBlocks(s, e, k) {
    }
  }

  /** Claims are released only from clear entities, and a handoff is flagged only when it is clear. */
  ghost predicate Careful(s: State, after: State) {
    && (forall k {:trigger s.claims[k]} :: k in s.claims && k !in after.claims ==> Blockers(s, k) == {})
    && (forall k {:trigger after.handoffs[k]} :: k in after.handoffs && Flagged(after.handoffs[k]) ==>
          (k in s.handoffs && Flagged(s.handoffs[k])) || Blockers(after, k) == {})
  }

  lemma EffectsStayClaimed(s: State, after: State)
    requires EffectsClaimed(s.claims, s.effects) && Settles(s, after) && Careful(s, after)
    ensures EffectsClaimed(after.claims, after.effects)
  {
    forall e | e in after.effects ensures EffectClaimed(after.claims, after.effects[e]) {
      assert EffectClaimed(s.claims, s.effects[e]);
      if Unresolved(after.effects[e]) {
        var k := s.effects[e].scope.value;
        assert EffectBlocks(s, e, k);
        assert e in Blockers(s, k);
        assert k in after.claims && after.claims[k] == s.claims[k];
      }
    }
  }

  lemma SettlingKeepsSettled(s: State, after: State)
    requires Settled(s) && Settles(s, after) && Careful(s, after)
    ensures Settled(after)
  {
    hide EffectsClaimed, Blockers, PermitsSettle, EffectsSettle;
    EffectsStayClaimed(s, after);
    forall k | k in after.handoffs && Flagged(after.handoffs[k]) ensures Blockers(after, k) == {} {
      SettlingShrinks(s, after, k);
    }
  }

  // ---- apply --------------------------------------------------------------------------------

  /** Stored claims stay; a new one is on an entity that does not drain. */
  ghost predicate ClaimsAdmitted(entities: map<string, Entity>, before: map<string, Claim>, after: map<string, Claim>) {
    && (forall k {:trigger before[k]} {:trigger after[k]} :: k in before ==> k in after && after[k] == before[k])
    && (forall k {:trigger after[k]} :: k in after && k !in before ==> k in entities && !IsDraining(entities[k]))
  }

  predicate RowClaims(row: Rows<ClaimRow>, k: string, operation: string) {
    row.key == k && row.row.Some? && row.row.value.operation == operation
  }

  /** The claims come from the stored ones and the first `n` rows. */
  ghost predicate ClaimsFrom(before: map<string, Claim>, rows: seq<Rows<ClaimRow>>, n: nat, after: map<string, Claim>)
    requires n <= |rows|
  {
    forall k {:trigger after[k]} :: k in after ==>
      k in before || (exists i {:trigger rows[i]} :: 0 <= i < n && RowClaims(rows[i], k, after[k].operation))
  }

  lemma {:induction false} ClaimRowsAdmit(entities: map<string, Entity>, claims: map<string, Claim>, actor: string,
                                          installation: string, rows: seq<Rows<ClaimRow>>, n: nat)
    requires n <= |rows| && ClaimsDistinct(claims) && installation != "" && DistinctIds(claims, rows)
    ensures var after := AdmitClaims(entities, claims, actor, installation, rows[..n]);
            after.Some? ==> ClaimsAdmitted(entities, claims, after.value) && ClaimsDistinct(after.value)
                            && ClaimsFrom(claims, rows, n, after.value)
  {
    if n > 0 {
      ClaimRowsAdmit(entities, claims, actor, installation, rows, n - 1);
      assert rows[..n][..n-1] == rows[..n-1];
      var before := AdmitClaims(entities, claims, actor, installation, rows[..n-1]);
      if before.Some? {
        ClaimRowAdmits(entities, claims, before.value, actor, installation, rows, n - 1);
      }
    }
  }

  lemma ClaimRowAdmits(entities: map<string, Entity>, claims: map<string, Claim>, before: map<string, Claim>,
                       actor: string, installation: string, rows: seq<Rows<ClaimRow>>, i: nat)
    requires i < |rows| && ClaimsDistinct(before) && installation != "" && DistinctIds(claims, rows)
    requires ClaimsAdmitted(entities, claims, before) && ClaimsFrom(claims, rows, i, before)
    ensures var after := AdmitClaim(entities, before, actor, installation, rows[i].key, rows[i].row);
            after.Some? ==> ClaimsAdmitted(entities, claims, after.value) && ClaimsDistinct(after.value)
                            && ClaimsFrom(claims, rows, i + 1, after.value)
  {
    var after := AdmitClaim(entities, before, actor, installation, rows[i].key, rows[i].row);
    if after.Some? && rows[i].row.Some? {
      var k, op := rows[i].key, rows[i].row.value.operation;
      assert after.value == before[k := after.value[k]] && after.value[k].operation == op;
      forall j | j in before && j != k ensures before[j].operation != op {
        if j !in claims {
          var m :| 0 <= m < i && RowClaims(rows[m], j, before[j].operation);
        }
      }
    }
  }

  /** Stored permits keep their claim; a new one belongs to a claim whose entity does not drain. */
  predicate PermitsAdmitted(entities: map<string, Entity>, index: map<string, string>, before: map<string, Permit>,
                            after: map<string, Permit>) {
    && before.Keys <= after.Keys
    && (forall p {:trigger after[p]} :: p in after ==>
          if p in before then after[p].claim == before[p].claim
          else after[p].claim in index && !LeadsToDraining(entities, index, after[p].claim))
  }

  lemma {:induction false} PermitRowsAdmit(entities: map<string, Entity>, index: map<string, string>,
                                           permits: map<string, Permit>, actor: string, installation: string,
                                           rows: seq<Rows<PermitRow>>)
    ensures var after := AdmitPermits(entities, index, permits, actor, installation, rows);
            after.Some? ==> PermitsAdmitted(entities, index, permits, after.value)
  {
    hide LeadsToDraining;
    if rows != [] {
      PermitRowsAdmit(entities, index, permits, actor, installation, rows[..|rows|-1]);
    }
  }

  predicate DropsStatus(row: Rows<PermitRow>, p: string) { row.key == p && row.row.Some? && row.row.value.status.None? }

  /** A stored permit is open afterwards exactly if it was open or a row for it leaves the status out. */
  lemma {:induction false} RowsReopen(entities: map<string, Entity>, index: map<string, string>,
                                      permits: map<string, Permit>, actor: string, installation: string,
                                      rows: seq<Rows<PermitRow>>, n: nat, p: string)
    requires n <= |rows| && p in permits
    ensures var after := AdmitPermits(entities, index, permits, actor, installation, rows[..n]);
            after.Some? ==>
              && p in after.value
              && (StatusOpen(after.value[p]) <==>
                    StatusOpen(permits[p]) || exists i {:trigger rows[i]} :: 0 <= i < n && DropsStatus(rows[i], p))
  {
    hide LeadsToDraining;
    if n > 0 {
      RowsReopen(entities, index, permits, actor, installation, rows, n - 1, p);
      assert rows[..n][..n-1] == rows[..n-1];
    }
  }

  /** Stored effects keep their scope and terminal outcomes; a new one is for an entity that does not drain. */
  predicate EffectsAdmitted(entities: map<string, Entity>, index: map<string, string>, before: map<string, Effect>,
                            after: map<string, Effect>) {
    && before.Keys <= after.Keys
    && (forall e {:trigger after[e]} :: e in after ==>
          if e in before then
            after[e].claim == before[e].claim && after[e].scope == before[e].scope
              && (Unresolved(after[e]) ==> Unresolved(before[e]))
          else
            after[e].claim in index && !LeadsToDraining(entities, index, after[e].claim)
            && after[e].scope == Some(index[after[e].claim]))
  }

  lemma {:induction false} EffectRowsAdmit(entities: map<string, Entity>, index: map<string, string>,
                                           effects: map<string, Effect>, actor: string, installation: string,
                                           rows: seq<Rows<EffectRow>>, n: nat)
    requires n <= |rows| && EffectsForClaims(effects, index, rows)
    ensures var after := AdmitEffects(entities, index, effects, actor, installation, rows[..n]);
            after.Some? ==> EffectsAdmitted(entities, index, effects, after.value)
  {
    hide LeadsToDraining;
    if n > 0 {
      EffectRowsAdmit(entities, index, effects, actor, installation, rows, n - 1);
      assert rows[..n][..n-1] == rows[..n-1];
    }
  }

  /** What an accepted, coherent apply does to the tables. */
  ghost predicate Admits(s: State, after: State, index: map<string, string>) {
    && AuthorityKept(s.entities, after.entities) && ClaimsAdmitted(after.entities, s.claims, after.claims)
    && ClaimsDistinct(after.claims) && IsIndex(after.claims, index)
    && PermitsAdmitted(after.entities, index, s.permits, after.permits)
    && EffectsAdmitted(after.entities, index, s.effects, after.effects)
    && after.handoffs == s.handoffs
  }

  lemma ApplyAdmits(s: State, r: Request)
    requires Inv(s) && ClaimsDistinct(s.claims) && r.Apply? && Coherent(s, r)
    ensures ApplyChanges(s, r).Some? ==> Admits(s, ApplyChanges(s, r).value, r.index)
  {
    hide Inv, ClaimsDistinct, DistinctIds, EffectsForClaims, AuthorityKept, ClaimsAdmitted, PermitsAdmitted,
      EffectsAdmitted, IsIndex, PatchEntities, AdmitClaims, AdmitPermits, AdmitEffects, OwnerPatchBlocked,
      AuthorityDrains, ActiveInstallation, VersionsMatch, ClaimsFrom;
    var after := ApplyChanges(s, r);
    if after.Some? {
      ApplyKeepsInv(s, r);
      var c := r.changes;
      assert c.claims[..|c.claims|] == c.claims && c.effects[..|c.effects|] == c.effects;
      ClaimRowsAdmit(after.value.entities, s.claims, r.actor, r.installation, c.claims, |c.claims|);
      PermitRowsAdmit(after.value.entities, r.index, s.permits, r.actor, r.installation, c.permits);
      EffectRowsAdmit(after.value.entities, r.index, s.effects, r.actor, r.installation, c.effects, |c.effects|);
    }
  }

  lemma AdmittedPermitBlocks(s: State, after: State, index: map<string, string>, k: string, p: string)
    requires Admits(s, after, index) && k in s.entities && IsDraining(s.entities[k])
    ensures PermitBlocks(after, p, k) ==>
              && p in s.permits && k in s.claims && s.permits[p].claim == s.claims[k].operation
                 && OutcomeOpen(s.effects, p)
  {
    if PermitBlocks(after, p, k) {
      assert SameAuthority(s.entities[k], after.entities[k]);
      assert k in s.claims && after.claims[k] == s.claims[k];
      assert p in s.effects ==> p in after.effects && (Unresolved(after.effects[p]) ==> Unresolved(s.effects[p]));
    }
  }

  lemma AdmittedEffectBlocks(s: State, after: State, index: map<string, string>, k: string, e: string)
    requires Admits(s, after, index) && k in s.entities && IsDraining(s.entities[k])
    ensures EffectBlocks(after, e, k) ==> EffectBlocks(s, e, k)
  {
    if EffectBlocks(after, e, k) {
      assert SameAuthority(s.entities[k], after.entities[k]);
    }
  }

  ghost predicate NothingReopens(before: map<string, Permit>, after: map<string, Permit>) {
    forall p {:trigger after[p]} :: p in before && p in after && StatusOpen(after[p]) ==> StatusOpen(before[p])
  }

  lemma AdmittingShrinks(s: State, after: State, index: map<string, string>, k: string)
    requires Admits(s, after, index) && NothingReopens(s.permits, after.permits) && k in s.entities
             && IsDraining(s.entities[k])
    ensures Blockers(after, k) <= Blockers(s, k)
  {
    hide Admits, EffectBlocks;
    forall b | b in Blockers(after, k) ensures b in Blockers(s, k) {
      AdmittedPermitBlocks(s, after, index, k, b);
      AdmittedEffectBlocks(s, after, index, k, b);
      BlocksStored(s, b, k);
    }
  }

  lemma BlocksStored(s: State, b: string, k: string)
    ensures PermitBlocks(s, b, k) ==> b in s.permits
    ensures EffectBlocks(s, b, k) ==> b in s.effects
  {
  }

  lemma StatusesStay(s: State, r: Request)
    requires r.Apply? && StatusesKept(s.permits, r.changes.permits)
    ensures ApplyChanges(s, r).Some? ==> NothingReopens(s.permits, ApplyChanges(s, r).value.permits)
  {
    hide PatchEntities, AdmitClaims, AdmitPermits, AdmitEffects, IsIndex, OwnerPatchBlocked, AuthorityDrains,
      ActiveInstallation, VersionsMatch;
    var after, rows := ApplyChanges(s, r), r.changes.permits;
    assert rows[..|rows|] == rows;
    if after.Some? {
      forall p | p in s.permits && p in after.value.permits && StatusOpen(after.value.permits[p])
        ensures StatusOpen(s.permits[p]) {
        RowsReopen(after.value.entities, r.index, s.permits, r.actor, r.installation, rows, |rows|, p);
      }
    }
  }

  lemma AdmittingKeepsSettled(s: State, after: State, index: map<string, string>)
    requires Settled(s) && HandoffsHold(s.entities, s.handoffs) && Admits(s, after, index)
    requires NothingReopens(s.permits, after.permits)
    ensures Settled(after)
  {
    forall e | e in after.effects ensures EffectClaimed(after.claims, after.effects[e]) {
      if e in s.effects {
        assert EffectClaimed(s.claims, s.effects[e]);
      }
    }
    forall k | k in after.handoffs && Flagged(after.handoffs[k]) ensures Blockers(after, k) == {} {
      assert k in s.handoffs && Flagged(s.handoffs[k]) && Blockers(s, k) == {};
      AdmittingShrinks(s, after, index, k);
    }
  }

  // ---- the other transactions ---------------------------------------------------------------

  /** Owner and generation move only where nothing is open. */
  ghost predicate MovesOnlyClear(s: State, after: State) {
    forall k {:trigger after.entities[k]} {:trigger s.entities[k]} :: k in s.entities ==>
      && k in after.entities
      && ((after.entities[k].owner == s.entities[k].owner && after.entities[k].generation == s.entities[k].generation)
          || Blockers(s, k) == {})
  }

  ghost predicate Quiet(s: State, after: State) {
    Settles(s, after) && Careful(s, after) && MovesOnlyClear(s, after)
  }

  predicate SameTables(s: State, after: State) {
    after.claims == s.claims && after.permits == s.permits && after.effects == s.effects
  }

  lemma SameTablesSettle(s: State, after: State)
    requires SameTables(s, after)
    ensures Settles(s, after) && forall k :: Blockers(after, k) == Blockers(s, k)
  {
    hide Blockers;
    forall k ensures Blockers(after, k) == Blockers(s, k) {
      SettlingShrinks(s, after, k);
      SettlingShrinks(after, s, k);
    }
  }

  lemma StageIsQuiet(s: State, keys: set<string>, pending: string)
    requires Settled(s)
    ensures Quiet(s, Stage(s, keys, pending))
  {
    hide Blockers, Settles, EffectsClaimed;
    var after := Stage(s, keys, pending);
    SameTablesSettle(s, after);
    forall k | k in after.handoffs && Flagged(after.handoffs[k])
      ensures (k in s.handoffs && Flagged(s.handoffs[k])) || Blockers(after, k) == {} {
      if k in keys && k in s.entities && ClaimInstallation(s, k) == "" {
        assert k !in s.claims;
        UnclaimedIsClear(s, k);
      }
    }
  }

  lemma TransferIsQuiet(s: State, keys: set<string>, owner: string)
    requires forall k :: k in keys ==> Blockers(s, k) == {}
    ensures Quiet(s, Transfer(s, keys, owner))
  {
    hide Blockers, Unresolved, StatusOpen;
  }

  lemma FenceIsQuiet(s: State, r: Request)
    requires r.RecordFence? && RecordFenceOf(s, r).Some?
    ensures Quiet(s, RecordFenceOf(s, r).value.0)
  {
    var after := RecordFenceOf(s, r).value.0;
    assert Settles(s, after) by { hide Blockers; }
    assert Blockers(after, r.entity) == {} by { FencedIsClear(s, after, r.entity); }
    assert Careful(s, after) && MovesOnlyClear(s, after) by { hide Blockers, FencePermits; }
  }

  lemma FencedIsClear(s: State, after: State, k: string)
    requires after.permits == FencePermits(s, k) && after.claims == s.claims && after.effects == s.effects
    requires !exists e :: e in s.effects && EffectBlocks(s, e, k)
    ensures Blockers(after, k) == {}
  {
    forall p ensures !PermitBlocks(after, p, k) {
    }
    forall e ensures !EffectBlocks(after, e, k) {
      assert EffectBlocks(after, e, k) ==> EffectBlocks(s, e, k);
    }
  }

  lemma SmallStepsAreQuiet(s: State, r: Request)
    requires Settled(s)
    ensures r.AcknowledgeStop? && AcknowledgeStopOf(s, r).Some? ==> Quiet(s, AcknowledgeStopOf(s, r).value.0)
    ensures r.RetainLate? && RetainLateOf(s, r).Some? ==> Quiet(s, RetainLateOf(s, r).value.0)
    ensures r.Enroll? && EnrollOf(s, r).Some? ==> Quiet(s, EnrollOf(s, r).value.0)
    ensures r.BeginHandoff? && BeginHandoffOf(s, r).Some? ==> Quiet(s, BeginHandoffOf(s, r).value.0)
  {
    hide Blockers, Settles, Settled, MayOwn;
    if r.AcknowledgeStop? && AcknowledgeStopOf(s, r).Some? {
      SameTablesSettle(s, AcknowledgeStopOf(s, r).value.0);
    } else if r.RetainLate? && RetainLateOf(s, r).Some? {
      SameTablesSettle(s, RetainLateOf(s, r).value.0);
    } else if r.Enroll? && EnrollOf(s, r).Some? {
      SameTablesSettle(s, EnrollOf(s, r).value.0);
    } else if r.BeginHandoff? && BeginHandoffOf(s, r).Some? {
      SameTablesSettle(s, BeginHandoffOf(s, r).value.0);
    }
  }

  lemma ReconcileIsQuiet(s: State, r: Request)
    requires r.ReconcileEffect? && ReconcileEffectOf(s, r).Some?
    ensures Quiet(s, ReconcileEffectOf(s, r).value.0)
  {
    hide Blockers;
  }

  lemma BootstrapIsQuiet(sequence: nat, s: State, r: Request)
    requires r.Bootstrap? && BootstrapOf(sequence, s, r).Some?
    ensures Quiet(s, BootstrapOf(sequence, s, r).value.0)
  {
    hide Blockers;
  }

  lemma QuietFrame(s: State, middle: State, after: State)
    requires Quiet(s, middle) && SameTables(middle, after)
    requires after.entities == middle.entities && after.handoffs == middle.handoffs
    ensures Quiet(s, after)
  {
    hide Blockers;
    SameTablesSettle(middle, after);
  }

  lemma ChangesAreQuiet(s: State, r: Request)
    requires Settled(s)
    ensures r.BeginMemberChange? && BeginMemberChangeOf(s, r).Some? ==> Quiet(s, BeginMemberChangeOf(s, r).value.0)
    ensures r.BeginRevocation? && BeginRevocationOf(s, r).Some? ==> Quiet(s, BeginRevocationOf(s, r).value.0)
    ensures r.CompleteChange? && CompleteChangeOf(s, r).Some? ==> Quiet(s, CompleteChangeOf(s, r).value.0)
  {
    hide Quiet, Settled, Stage, Transfer, Blockers;
    if r.BeginMemberChange? && BeginMemberChangeOf(s, r).Some? {
      StageIsQuiet(s, Concerned(s, r), "");
      StageFrame(s, Concerned(s, r), "");
      QuietFrame(s, Stage(s, Concerned(s, r), ""), BeginMemberChangeOf(s, r).value.0);
    } else if r.BeginRevocation? && BeginRevocationOf(s, r).Some? {
      StageIsQuiet(s, Running(s, r.target), "");
      StageFrame(s, Running(s, r.target), "");
      QuietFrame(s, Stage(s, Running(s, r.target), ""), BeginRevocationOf(s, r).value.0);
    } else if r.CompleteChange? && CompleteChangeOf(s, r).Some? {
      var keys := s.changes[r.key].entities;
      TransferIsQuiet(s, keys, "");
      TransferFrame(s, keys, "");
      QuietFrame(s, Transfer(s, keys, ""), CompleteChangeOf(s, r).value.0);
    }
  }

  /** A transfer of an entity without a claim leaves all claims, permits, effects and handoffs as they are. */
  lemma UnclaimedTransfer(s: State, k: string, owner: string)
    requires k in s.entities && k !in s.handoffs && k !in s.claims
    ensures var after := Transfer(Stage(s, {k}, owner), {k}, owner);
            SameTables(s, after) && after.handoffs == s.handoffs
  {
    hide Drained, Transferred, HandoffFrom;
  }

  lemma KeepsSettledFrom(s: State, after: State)
    requires Settled(s) && SameTables(s, after) && after.handoffs == s.handoffs
    ensures Settled(after)
  {
    hide Blockers, Settles;
    SameTablesSettle(s, after);
    SettlingKeepsSettled(s, after);
  }

  lemma TransferredTaskIsQuiet(start: State, s: State, k: string, owner: string)
    requires Settled(s) && SameTables(start, s) && MovesOnlyClear(start, s)
    requires k in s.entities && k !in s.handoffs && ClaimInstallation(s, k) == ""
    ensures var after := Transfer(Stage(s, {k}, owner), {k}, owner);
            Settled(after) && SameTables(start, after) && MovesOnlyClear(start, after)
  {
    hide Blockers, Settled, Stage, Transfer;
    EmptyMeansUnclaimed(s, k);
    UnclaimedTransfer(s, k, owner);
    StagedAndTransferred(s, k, owner);
    KeepsSettledFrom(s, Transfer(Stage(s, {k}, owner), {k}, owner));
    SameTablesSettle(start, s);
  }

  lemma StagedTaskIsQuiet(start: State, s: State, k: string, owner: string)
    requires Settled(s) && SameTables(start, s) && MovesOnlyClear(start, s) && k in s.entities
    ensures var after := Stage(s, {k}, owner);
            Settled(after) && SameTables(start, after) && MovesOnlyClear(start, after)
  {
    hide Blockers, Settled, Stage, Settles, Careful;
    StagedAndTransferred(s, k, owner);
    StageIsQuiet(s, {k}, owner);
    StageFrame(s, {k}, owner);
    SettlingKeepsSettled(s, Stage(s, {k}, owner));
  }

  /** Inheriting moves only entities without a claim, so it changes no claim at all. */
  lemma InheritTaskIsQuiet(start: State, h: Inheritance, project: string, owner: string, task: string)
    requires Settled(h.state) && SameTables(start, h.state) && MovesOnlyClear(start, h.state)
    ensures var after := InheritTask(h, project, owner, task);
            after.Some? ==>
              Settled(after.value.state) && SameTables(start, after.value.state)
                && MovesOnlyClear(start, after.value.state)
  {
    hide Blockers, Settled, MayOwn, Stage, Transfer;
    var s, k := h.state, TaskKey(task);
    if k !in s.entities {
      KeepsSettledFrom(s, s.(entities := s.entities[k := InheritedEntity(project, task, owner)]));
    } else if k !in s.handoffs && ClaimInstallation(s, k) == "" {
      TransferredTaskIsQuiet(start, s, k, owner);
    } else {
      StagedTaskIsQuiet(start, s, k, owner);
    }
  }

  lemma EmptyMeansUnclaimed(s: State, k: string)
    requires Settled(s) && ClaimInstallation(s, k) == ""
    ensures k !in s.claims && Blockers(s, k) == {}
  {
    UnclaimedIsClear(s, k);
  }

  lemma {:induction false} InheritTasksAreQuiet(s: State, project: string, owner: string, tasks: seq<string>)
    requires Settled(s)
    ensures var h := InheritTasks(Inheritance(s, [], []), project, owner, tasks);
            h.Some? ==> Settled(h.value.state) && SameTables(s, h.value.state) && MovesOnlyClear(s, h.value.state)
  {
    hide Blockers, Settled, InheritTask;
    if tasks != [] {
      var last := |tasks| - 1;
      InheritTasksAreQuiet(s, project, owner, tasks[..last]);
      var before := InheritTasks(Inheritance(s, [], []), project, owner, tasks[..last]);
      if before.Some? {
        InheritTaskIsQuiet(s, before.value, project, owner, tasks[last]);
      }
    }
  }

  // ---- any transaction ----------------------------------------------------------------------

  /** No effect goes away, changes its scope or claim, or is open again. */
  predicate EffectsOnlyResolve(before: map<string, Effect>, after: map<string, Effect>) {
    forall e {:trigger before[e]} {:trigger after[e]} :: e in before ==>
      && e in after && after[e].scope == before[e].scope && after[e].claim == before[e].claim
      && (Unresolved(after[e]) ==> Unresolved(before[e]))
  }

  /** What a disciplined transaction does: it keeps the tables settled, moves authority only where
      nothing is open, and never adds a blocker to an entity that drains. */
  ghost predicate Orderly(s: State, after: State) {
    && Settled(after) && MovesOnlyClear(s, after) && EffectsOnlyResolve(s.effects, after.effects)
    && (forall k {:trigger Blockers(after, k)} :: k in s.entities && IsDraining(s.entities[k]) ==>
          Blockers(after, k) <= Blockers(s, k))
  }

  lemma QuietIsOrderly(s: State, after: State)
    requires Settled(s) && Quiet(s, after)
    ensures Orderly(s, after)
  {
    hide Blockers, Settled, Careful, MovesOnlyClear;
    SettlingKeepsSettled(s, after);
    forall k ensures Blockers(after, k) <= Blockers(s, k) {
      SettlingShrinks(s, after, k);
    }
  }

  lemma ApplyIsOrderly(s: State, r: Request)
    requires Inv(s) && Settled(s) && r.Apply? && Disciplined(s, r) && ApplyChanges(s, r).Some?
    ensures Orderly(s, ApplyChanges(s, r).value)
  {
    hide Inv, ApplyChanges, Coherent, Blockers, Admits, EffectsClaimed, FlagsClear, StatusesKept, NothingReopens;
    ApplyAdmits(s, r);
    StatusesStay(s, r);
    ApplyKeepsInv(s, r);
    HandoffsOf(s);
    var after := ApplyChanges(s, r).value;
    AdmittingKeepsSettled(s, after, r.index);
    forall k | k in s.entities && IsDraining(s.entities[k]) ensures Blockers(after, k) <= Blockers(s, k) {
      AdmittingShrinks(s, after, r.index, k);
    }
    KeptMovesNothing(s, after);
    AdmittedOnlyResolve(s, after, r.index);
  }

  lemma AdmittedOnlyResolve(s: State, after: State, index: map<string, string>)
    requires Admits(s, after, index)
    ensures EffectsOnlyResolve(s.effects, after.effects)
  {
  }

  lemma HandoffsOf(s: State)
    requires Inv(s)
    ensures HandoffsHold(s.entities, s.handoffs)
  {
  }

  lemma KeptMovesNothing(s: State, after: State)
    requires AuthorityKept(s.entities, after.entities)
    ensures MovesOnlyClear(s, after)
  {
    hide Blockers;
  }

  lemma InheritanceIsOrderly(s: State, project: string, owner: string, tasks: seq<string>)
    requires Settled(s)
    ensures var h := InheritTasks(Inheritance(s, [], []), project, owner, tasks);
            h.Some? ==> Orderly(s, h.value.state)
  {
    hide Blockers, Settled, InheritTasks, MovesOnlyClear;
    InheritTasksAreQuiet(s, project, owner, tasks);
    var h := InheritTasks(Inheritance(s, [], []), project, owner, tasks);
    if h.Some? {
      SameTablesSettle(s, h.value.state);
    }
  }

  lemma CompletionIsQuiet(s: State, r: Request)
    requires r.CompleteHandoff? && CompleteHandoffOf(s, r).Some?
    ensures Quiet(s, CompleteHandoffOf(s, r).value.0)
  {
    hide Quiet, Transfer, Blockers, MayOwn;
    TransferIsQuiet(s, {r.entity}, s.handoffs[r.entity].pending);
  }

  lemma PerformIsOrderly(sequence: nat, s: State, r: Request)
    requires Inv(s) && Settled(s) && Disciplined(s, r) && Perform(sequence, s, r).Some?
    ensures Orderly(s, Perform(sequence, s, r).value.0)
  {
    hide Inv, Settled, Orderly, Quiet, Disciplined, BeginMemberChangeOf, BeginRevocationOf, CompleteChangeOf,
      AcknowledgeStopOf, RetainLateOf, EnrollOf, BeginHandoffOf, RecordFenceOf, ReconcileEffectOf,
      CompleteHandoffOf, BootstrapOf, ApplyChanges, InheritTasks;
    var after := Perform(sequence, s, r).value.0;
    match r
    case Apply(_, _, _, _, _) => ApplyIsOrderly(s, r);
    case ReconcileInherited(actor, installation, project, phase, owner, tasks) => InheritanceIsOrderly(s, project,
        owner, tasks);
    case Bootstrap(_, _, _, _) => BootstrapIsQuiet(sequence, s, r); QuietIsOrderly(s, after);
    case RecordFence(_, _, _, _, _) => FenceIsQuiet(s, r); QuietIsOrderly(s, after);
    case ReconcileEffect(_, _, _, _) => ReconcileIsQuiet(s, r); QuietIsOrderly(s, after);
    case CompleteHandoff(_, _, _) => CompletionIsQuiet(s, r); QuietIsOrderly(s, after);
    case BeginMemberChange(_, _, _, _, _) => ChangesAreQuiet(s, r); QuietIsOrderly(s, after);
    case BeginRevocation(_, _, _) => ChangesAreQuiet(s, r); QuietIsOrderly(s, after);
    case CompleteChange(_, _, _) => ChangesAreQuiet(s, r); QuietIsOrderly(s, after);
    case _ => SmallStepsAreQuiet(s, r); QuietIsOrderly(s, after);
  }
}
