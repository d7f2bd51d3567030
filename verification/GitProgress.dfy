/** What can always be done: an owner's undisturbed effect call goes through, and an administrator can bring any
    pending handoff to its end. */
module GitProgress {
  import opened Options
  import opened GitState
  import GitSafety
  import opened GitChain
  import opened GitClients
  import opened GitTwins
  import GitDraft
  import GitAuthority
  import GitHandoffs
  import GitMembership

  // ---- an owner's effect call ---------------------------------------------------------------

  function CallClaim(e: EffectCall): Claim {
    Claim(ClaimOperation(e), Some(e.kind), Some(e.scope), Some(e.owner), Some(e.generation), e.member, e.installation)
  }

  /** The call comes from an active installation of the member, for an entity that the member owns in this
      generation and version, and that neither drains nor is claimed otherwise; and it was not made before. */
  predicate Eligible(s: State, e: EffectCall) {
    var k := EntityKey(e);
    && ActiveInstallation(s, e.member, e.installation) && !AuthorityDrains(s.changes, e.member, e.installation)
    && k in s.entities && e.owner == e.member
    && s.entities[k].kind == Some(e.kind) && s.entities[k].scope == Some(e.scope)
    && s.entities[k].owner == Some(e.owner) && Default(s.entities[k].generation, -1) == e.generation
    && Default(s.entities[k].version, 0) == e.version && !IsDraining(s.entities[k])
    && (k in s.claims ==> s.claims[k] == CallClaim(e))
    && (forall j :: j in s.claims && s.claims[j].operation == ClaimOperation(e) ==> j == k)
    && EffectOperation(e) !in s.permits && EffectOperation(e) !in s.effects
  }

  function Claimed(s: State, e: EffectCall): State { s.(claims := s.claims[EntityKey(e) := CallClaim(e)]) }

  function CallEffect(e: EffectCall, outcome: EffectOutcome): Effect {
    Effect(ClaimOperation(e), Some(e.provider), Some(EntityKey(e)), Some(e.effectKey), Some(outcome), e.member,
           e.installation)
  }

  function Admitted(s: State, e: EffectCall): State {
    s.(permits := s.permits[EffectOperation(e) := Permit(ClaimOperation(e), None, e.member, e.installation)],
       effects := s.effects[EffectOperation(e) := CallEffect(e, Pending)])
  }

  function Outcome(ok: bool): EffectOutcome { if ok then Succeeded else Unknown }

  function Finished(s: State, e: EffectCall, ok: bool): State {
    s.(effects := s.effects[EffectOperation(e) := CallEffect(e, Outcome(ok))])
  }

  lemma ClaimIsAccepted(s: State, e: EffectCall, index: map<string, string>)
    requires Eligible(s, e) && ResolvedBy(s, ClaimRequest(e), index)
    ensures ApplyChanges(s, WithIndex(ClaimRequest(e), index)) == Some(Claimed(s, e))
  {
    hide EntityKey, EffectOperation, IsIndex;
    var rows := ClaimRequest(e).changes.claims;
    assert ClaimOperation(e) != "" by { assert ClaimOperation(e)[0] == 'c'; }
    hide ClaimOperation;
    assert rows[..0] == [] && rows[|rows|-1] == rows[0];
    assert PatchEntities(s.entities, []) == Some(s.entities);
    assert AdmitClaims(s.entities, s.claims, e.member, e.installation, []) == Some(s.claims);
    assert AdmitClaim(s.entities, s.claims, e.member, e.installation, EntityKey(e), rows[0].row) ==
        Some(Claimed(s, e).claims);
  }

  /** The call's claim is stored, and nobody else has its id. */
  predicate Holds(s: State, e: EffectCall) {
    && ActiveInstallation(s, e.member, e.installation) && !AuthorityDrains(s.changes, e.member, e.installation)
    && EntityKey(e) in s.entities && !IsDraining(s.entities[EntityKey(e)])
    && Default(s.entities[EntityKey(e)].version, 0) == e.version
    && EntityKey(e) in s.claims && s.claims[EntityKey(e)] == CallClaim(e)
    && (forall j :: j in s.claims && s.claims[j].operation == ClaimOperation(e) ==> j == EntityKey(e))
  }

  lemma IndexLeads(s: State, e: EffectCall, index: map<string, string>)
    requires Holds(s, e) && IsIndex(s.claims, index)
    ensures ClaimOperation(e) in index && index[ClaimOperation(e)] == EntityKey(e)
  {
    hide ClaimOperation, EntityKey;
    assert s.claims[EntityKey(e)].operation == ClaimOperation(e);
  }

  lemma AdmissionIsAccepted(s: State, e: EffectCall, index: map<string, string>)
    requires Holds(s, e) && EffectOperation(e) !in s.permits && EffectOperation(e) !in s.effects
    requires ResolvedBy(s, AdmitRequest(e), index)
    ensures ApplyChanges(s, WithIndex(AdmitRequest(e), index)) == Some(Admitted(s, e))
  {
    hide EntityKey, EffectOperation, ClaimOperation, IsIndex;
    var permits, effects := AdmitRequest(e).changes.permits, AdmitRequest(e).changes.effects;
    assert PatchEntities(s.entities, []) == Some(s.entities);
    assert AdmitClaims(s.entities, s.claims, e.member, e.installation, []) == Some(s.claims);
    IndexLeads(s, e, index);
    assert permits[..0] == [] && effects[..0] == [] && permits[|permits|-1] == permits[0]
      && effects[|effects|-1] == effects[0];
    assert AdmitPermits(s.entities, index, s.permits, e.member, e.installation, []) == Some(s.permits);
    assert AdmitEffects(s.entities, index, s.effects, e.member, e.installation, []) == Some(s.effects);
    assert AdmitPermit(s.entities, index, s.permits, e.member, e.installation, EffectOperation(e), permits[0].row) ==
        Some(Admitted(s, e).permits);
    assert AdmitEffect(s.entities, index, s.effects, e.member, e.installation, EffectOperation(e), effects[0].row) ==
        Some(Admitted(s, e).effects);
  }

  lemma ReportIsAccepted(s: State, e: EffectCall, ok: bool, index: map<string, string>)
    requires Holds(s, e) && EffectOperation(e) in s.effects && s.effects[EffectOperation(e)] == CallEffect(e, Pending)
    requires ResolvedBy(s, FinishRequest(e, ok), index)
    ensures ApplyChanges(s, WithIndex(FinishRequest(e, ok), index)) == Some(Finished(s, e, ok))
  {
    hide EntityKey, EffectOperation, ClaimOperation, IsIndex;
    var effects := FinishRequest(e, ok).changes.effects;
    assert PatchEntities(s.entities, []) == Some(s.entities);
    assert AdmitClaims(s.entities, s.claims, e.member, e.installation, []) == Some(s.claims);
    IndexLeads(s, e, index);
    assert effects[..0] == [] && effects[|effects|-1] == effects[0];
    assert AdmitPermits(s.entities, index, s.permits, e.member, e.installation, []) == Some(s.permits);
    assert AdmitEffects(s.entities, index, s.effects, e.member, e.installation, []) == Some(s.effects);
    assert AdmitEffect(s.entities, index, s.effects, e.member, e.installation, EffectOperation(e), effects[0].row) ==
        Some(Finished(s, e, ok).effects);
  }

  lemma Keeps(s: State, e: EffectCall, ok: bool)
    requires Eligible(s, e)
    ensures Holds(Claimed(s, e), e) && Holds(Admitted(Claimed(s, e), e), e)
    ensures EffectOperation(e) !in Claimed(s, e).permits && EffectOperation(e) !in Claimed(s, e).effects
    ensures EffectOperation(e) in Admitted(Claimed(s, e), e).effects
    ensures Admitted(Claimed(s, e), e).effects[EffectOperation(e)] == CallEffect(e, Pending)
  {
    hide EntityKey, EffectOperation, ClaimOperation;
  }

  // ---- the same, by a client over the ref ---------------------------------------------------

  /** The three ids of the call are usable and new to the ledger. */
  predicate Fresh(d: Document, e: EffectCall, ok: bool) {
    && |ClaimOperation(e)| <= 200 && |EffectOperation(e)| <= 200 && |FinishOperation(e, ok)| <= 200
    && ClaimOperation(e) !in d.operations && EffectOperation(e) !in d.operations
    && FinishOperation(e, ok) !in d.operations
  }

  lemma IdsDiffer(e: EffectCall, ok: bool)
    ensures ClaimOperation(e) != "" && EffectOperation(e) != "" && FinishOperation(e, ok) != ""
    ensures ClaimOperation(e) != EffectOperation(e) && ClaimOperation(e) != FinishOperation(e, ok)
    ensures EffectOperation(e) != FinishOperation(e, ok)
  {
    assert ClaimOperation(e)[0] == 'c' && EffectOperation(e)[0] == 'e' && FinishOperation(e, ok)[0] == 'f';
  }

  /** One undisturbed transaction of the client that is about to read. */
  lemma JobIsAccepted(w: World, i: nat, job: Job, index: map<string, string>, stamp: nat, state: State)
    requires i in w.clients && w.clients[i] == Reading(job, RETRIES) && job.request.Apply?
    requires 0 < |job.operation| <= 200 && job.operation !in Head(w.head).operations
    requires ApplyChanges(Head(w.head).state, WithIndex(job.request, index)) == Some(state)
    ensures var after := RunFrom(w, Alone(i, index, stamp, |w.pushes|));
            && Head(after.head).state == state
            && Head(after.head).operations.Keys == Head(w.head).operations.Keys + {job.operation}
            && after.clients == match job.next
                                case Stop => w.clients - {i}
                                case Admit(call) => w.clients[i := Reading(AdmitJob(call), RETRIES)]
                                case Execute(call) => w.clients[i := Body(call)]
  {
    hide ApplyChanges, AdmitRequest, EffectOperation, Act, Fingerprint;
    AloneIsAccepted(w, i, job, index, stamp);
  }

  /** The call's claim and admission, one after the other. */
  lemma CallIsAdmitted(w: World, i: nat, e: EffectCall, stamp: nat) returns (actions: seq<Action>)
    requires i in w.clients && w.clients[i] == Reading(ClaimJob(e), RETRIES)
    requires Eligible(Head(w.head).state, e) && Fresh(Head(w.head), e, true)
    ensures var after := RunFrom(w, actions);
            && Head(after.head).state == Admitted(Claimed(Head(w.head).state, e), e)
            && Head(after.head).operations.Keys ==
                 Head(w.head).operations.Keys + {ClaimOperation(e), EffectOperation(e)}
            && after.clients == w.clients[i := Body(e)]
  {
    hide ApplyChanges, AdmitRequest, ClaimRequest, FinishRequest, EffectOperation, ClaimOperation, FinishOperation,
      Act, Eligible, Holds, Claimed, Admitted, RunFrom, EntityKey, Alone, ResolvedBy;
    IdsDiffer(e, true);
    IsApply(e, true);
    var s := Head(w.head).state;
    Keeps(s, e, true);
    var index := GitDraft.SomeResolution(s, ClaimRequest(e));
    ClaimIsAccepted(s, e, index);
    JobIsAccepted(w, i, ClaimJob(e), index, stamp, Claimed(s, e));
    var first := Alone(i, index, stamp, |w.pushes|);
    var middle := RunFrom(w, first);
    index := GitDraft.SomeResolution(Claimed(s, e), AdmitRequest(e));
    AdmissionIsAccepted(Claimed(s, e), e, index);
    JobIsAccepted(middle, i, AdmitJob(e), index, stamp, Admitted(Claimed(s, e), e));
    var second := Alone(i, index, stamp, |middle.pushes|);
    Continues(w, first, second);
    actions := first + second;
  }

  /** An eligible call whose client nobody disturbs runs its body and records how it ended: there is a schedule of
      just this client's steps after which its claim is held, the effect has the body's outcome, and the client
      is done. */
  lemma EffectCallSucceeds(w: World, i: nat, e: EffectCall, ok: bool, stamp: nat) returns (actions: seq<Action>)
    requires i !in w.clients && Eligible(Head(w.head).state, e)
    requires Fresh(Head(w.head), e, true) && Fresh(Head(w.head), e, ok)
    ensures var after := RunFrom(w, actions);
            && Head(after.head).state == Finished(Admitted(Claimed(Head(w.head).state, e), e), e, ok)
            && after.clients == w.clients
  {
    hide ApplyChanges, AdmitRequest, ClaimRequest, FinishRequest, EffectOperation, ClaimOperation, FinishOperation,
      Act, Eligible, Holds, Claimed, Admitted, Finished, RunFrom, EntityKey, Alone, ResolvedBy;
    var s := Head(w.head).state;
    Keeps(s, e, ok);
    IdsDiffer(e, ok);
    IsApply(e, ok);
    var begin, end := [BeginEffect(i, e)], [EndBody(i, ok)];
    Begins(w, i, e);
    var w1 := RunFrom(w, begin);
    var calls := CallIsAdmitted(w1, i, e, stamp);
    var w2 := RunFrom(w1, calls);
    Ends(w2, i, e, ok);
    var w3 := RunFrom(w2, end);
    var admitted := Admitted(Claimed(s, e), e);
    var index := GitDraft.SomeResolution(admitted, FinishRequest(e, ok));
    ReportIsAccepted(admitted, e, ok, index);
    JobIsAccepted(w3, i, FinishJob(e, ok), index, stamp, Finished(admitted, e, ok));
    var report := Alone(i, index, stamp, |w3.pushes|);
    Continues(w, begin, calls);
    Continues(w, begin + calls, end);
    Continues(w, begin + calls + end, report);
    actions := begin + calls + end + report;
    assert RunFrom(w3, report).clients == w.clients;
  }

  /** A client that lost a comparison and has an attempt left starts over, and if nobody disturbs that attempt and the
      request applies to what is then on the ref, it is recorded. */
  lemma LosingIsNotFinal(w: World, i: nat, index: map<string, string>, stamp: nat)
    requires i in w.clients && w.clients[i].Pushing? && w.clients[i].left > 1
    requires w.clients[i].attempt < |w.pushes| && w.pushes[w.clients[i].attempt].fate == Rejected
    requires var job := w.clients[i].job;
             && 0 < |job.operation| <= 200 && job.operation !in Head(w.head).operations
             && Advance(Head(w.head), job.operation, WithIndex(job.request, index)).Some?
    ensures var job := w.clients[i].job;
            var after := RunFrom(w, [Hear(i)] + Alone(i, index, stamp, |w.pushes|));
            && after.head.Link? && after.head.parent == w.head && after.head.operation == job.operation
            && Some(Head(after.head)) == Advance(Head(w.head), job.operation, WithIndex(job.request, index))
  {
    hide Advance, WithIndex, Alone;
    OneMore(w, [], Hear(i));
    assert [] + [Hear(i)] == [Hear(i)];
    var again := Act(w, Hear(i));
    assert again.head == w.head && again.pushes == w.pushes
      && again.clients[i] == Reading(w.clients[i].job, w.clients[i].left - 1);
    hide Act;
    AloneIsAccepted(again, i, w.clients[i].job, index, stamp);
    Continues(w, [Hear(i)], Alone(i, index, stamp, |w.pushes|));
  }

  lemma IsApply(e: EffectCall, ok: bool)
    ensures ClaimRequest(e).Apply? && AdmitRequest(e).Apply? && FinishRequest(e, ok).Apply?
  {
  }

  lemma Begins(w: World, i: nat, e: EffectCall)
    requires i !in w.clients
    ensures var after := RunFrom(w, [BeginEffect(i, e)]);
            && after.head == w.head && after.pushes == w.pushes
            && after.clients == w.clients[i := Reading(ClaimJob(e), RETRIES)]
  {
    hide ClaimRequest, ClaimOperation;
    OneMore(w, [], BeginEffect(i, e));
    assert [] + [BeginEffect(i, e)] == [BeginEffect(i, e)];
  }

  lemma Ends(w: World, i: nat, e: EffectCall, ok: bool)
    requires i in w.clients && w.clients[i] == Body(e)
    ensures var after := RunFrom(w, [EndBody(i, ok)]);
            && after.head == w.head && after.pushes == w.pushes
            && after.clients == w.clients[i := Reading(FinishJob(e, ok), RETRIES)]
  {
    hide FinishRequest, FinishOperation, EffectOperation;
    OneMore(w, [], EndBody(i, ok));
    assert [] + [EndBody(i, ok)] == [EndBody(i, ok)];
  }

  // ---- an administrator's way out of a handoff ----------------------------------------------

  /** An active administrator may bring the entity's handoff to its end. */
  predicate MayFinish(s: State, actor: string, installation: string, k: string) {
    && ActiveAdministrator(s, actor, installation) && k in s.handoffs && k in s.entities
    && MayOwn(s.members, s.entities[k], s.handoffs[k].pending)
  }

  /** The effects that keep the handoff from ending. */
  function OpenEffects(s: State, k: string): set<string> { set e | e in s.effects && EffectBlocks(s, e, k) }

  /** What stays while effects are reconciled. */
  predicate SameHandoff(s: State, t: State, k: string) {
    && t.members == s.members && t.installations == s.installations && t.entities == s.entities
    && t.handoffs == s.handoffs && t.claims == s.claims && t.changes == s.changes
  }

  lemma ReconcilesOne(w: GitSafety.World, actor: string, installation: string, k: string, e: string)
    requires MayFinish(w.state, actor, installation, k) && e in OpenEffects(w.state, k)
    ensures var after := GitSafety.Step(w, ReconcileEffect(actor, installation, e, Failed)).state;
            SameHandoff(w.state, after, k) && OpenEffects(after, k) == OpenEffects(w.state, k) - {e}
  {
    hide MayOwn;
    var s, r := w.state, ReconcileEffect(actor, installation, e, Failed);
    var after := ReconcileEffectOf(s, r).value.0;
    forall f ensures f in OpenEffects(after, k) <==> f in OpenEffects(s, k) - {e} {
    }
  }

  lemma Clears(w: GitSafety.World, actor: string, installation: string, k: string)
    requires GitSafety.Inv(w.state) && MayFinish(w.state, actor, installation, k) && OpenEffects(w.state, k) == {}
    ensures var fence, complete := RecordFence(actor, installation, k, true, true),
            CompleteHandoff(actor, installation, k);
            var after := GitSafety.Step(GitSafety.Step(w, fence), complete).state;
            GitAuthority.MovedTo(w.state, after, k, w.state.handoffs[k].pending)
  {
    hide MayOwn, GitSafety.Inv, FencePermits, Blockers, Transfer;
    var s := w.state;
    var fence, complete := RecordFence(actor, installation, k, true, true), CompleteHandoff(actor, installation, k);
    NoneOpen(s, k);
    var fenced := RecordFenceOf(s, fence).value.0;
    assert GitSafety.Step(w, fence) == GitSafety.World(w.sequence + 1, fenced);
    GitSafety.PerformKeeps(w.sequence, s, fence);
    GitHandoffs.FencedIsClear(s, fenced, k);
    assert Cleared(fenced, k);
    assert Perform(w.sequence + 1, fenced, complete).Some?;
    GitAuthority.CompletionHandsOver(w.sequence + 1, fenced, complete);
  }

  lemma NoneOpen(s: State, k: string)
    requires OpenEffects(s, k) == {}
    ensures !exists e :: e in s.effects && EffectBlocks(s, e, k)
  {
    forall e | e in s.effects ensures !EffectBlocks(s, e, k) {
      assert e !in OpenEffects(s, k);
    }
  }

  /** From any state with the safety invariant, whatever permits and effects are open: an active administrator can
      reconcile the open effects, record the fence and complete the handoff, and the pending owner owns the entity. */
  lemma {:induction false} HandoffCanComplete(w: GitSafety.World, actor: string, installation: string, k: string)
    returns (requests: seq<Request>)
    requires GitSafety.Inv(w.state) && MayFinish(w.state, actor, installation, k)
    ensures GitAuthority.MovedTo(w.state, GitSafety.Run(w, requests).state, k, w.state.handoffs[k].pending)
    decreases |OpenEffects(w.state, k)|
  {
    hide Perform, GitSafety.Inv, MayOwn, EffectBlocks;
    if OpenEffects(w.state, k) == {} {
      Clears(w, actor, installation, k);
      var fence, complete := RecordFence(actor, installation, k, true, true), CompleteHandoff(actor, installation, k);
      requests := [fence] + [complete];
      StepsFirst(w, fence, [complete]);
      StepsFirst(GitSafety.Step(w, fence), complete, []);
      assert [complete] + [] == [complete];
    } else {
      var e :| e in OpenEffects(w.state, k);
      var first := ReconcileEffect(actor, installation, e, Failed);
      ReconcilesOne(w, actor, installation, k, e);
      GitSafety.PerformKeeps(w.sequence, w.state, first);
      var rest := HandoffCanComplete(GitSafety.Step(w, first), actor, installation, k);
      requests := [first] + rest;
      StepsFirst(w, first, rest);
    }
  }

  lemma {:induction false} StepsFirst(w: GitSafety.World, first: Request, rest: seq<Request>)
    ensures GitSafety.Run(w, [first] + rest) == GitSafety.Run(GitSafety.Step(w, first), rest)
  {
    hide GitSafety.Step;
    var all := [first] + rest;
    if rest == [] {
      assert all[..0] == [];
    } else {
      StepsFirst(w, first, rest[..|rest|-1]);
      assert all[..|all|-1] == [first] + rest[..|rest|-1];
    }
  }

  // ---- an administrator's way through a membership change -----------------------------------

  /** Everything but permits, effects and the flags of handoffs stands, and nothing is opened. */
  ghost predicate OnlyClears(s: State, t: State) {
    && t.members == s.members && t.installations == s.installations && t.entities == s.entities
    && t.claims == s.claims && t.changes == s.changes && t.handoffs.Keys == s.handoffs.Keys
    && (forall k {:trigger Cleared(t, k)} :: Cleared(s, k) ==> Cleared(t, k))
  }

  lemma OnlyClearsTransitive(s: State, t: State, u: State)
    requires OnlyClears(s, t) && OnlyClears(t, u)
    ensures OnlyClears(s, u)
  {
    hide Cleared;
    forall k | Cleared(s, k) ensures Cleared(u, k) {
      assert Cleared(t, k);
    }
  }

  lemma OnlyClearsSame(s: State)
    ensures OnlyClears(s, s)
  {
  }

  lemma ReconcilingClears(w: GitSafety.World, actor: string, installation: string, e: string)
    requires ActiveAdministrator(w.state, actor, installation) && e in w.state.effects && Unresolved(w.state.effects[e])
    ensures OnlyClears(w.state, GitSafety.Step(w, ReconcileEffect(actor, installation, e, Failed)).state)
  {
    var s, r := w.state, ReconcileEffect(actor, installation, e, Failed);
    var after := ReconcileEffectOf(s, r).value.0;
    GitHandoffs.ReconcileIsQuiet(s, r);
    forall k | Cleared(s, k) ensures Cleared(after, k) {
      GitHandoffs.SettlingShrinks(s, after, k);
    }
  }

  lemma FencingClears(w: GitSafety.World, actor: string, installation: string, k: string)
    requires ActiveAdministrator(w.state, actor, installation) && k in w.state.handoffs && OpenEffects(w.state, k) == {}
    ensures var after := GitSafety.Step(w, RecordFence(actor, installation, k, true, true)).state;
            OnlyClears(w.state, after) && Cleared(after, k)
  {
    var s, r := w.state, RecordFence(actor, installation, k, true, true);
    NoneOpen(s, k);
    var after := RecordFenceOf(s, r).value.0;
    GitHandoffs.FenceIsQuiet(s, r);
    GitHandoffs.FencedIsClear(s, after, k);
    hide Blockers, FencePermits;
    forall j | Cleared(s, j) ensures Cleared(after, j) {
      GitHandoffs.SettlingShrinks(s, after, j);
    }
  }

  /** One handoff can be cleared without touching the others. */
  lemma {:induction false} ClearOne(w: GitSafety.World, actor: string, installation: string, k: string)
    returns (requests: seq<Request>)
    requires ActiveAdministrator(w.state, actor, installation) && k in w.state.handoffs
    ensures var after := GitSafety.Run(w, requests).state; OnlyClears(w.state, after) && Cleared(after, k)
    decreases |OpenEffects(w.state, k)|
  {
    hide Perform, EffectBlocks, Cleared, OnlyClears, GitSafety.Step;
    if OpenEffects(w.state, k) == {} {
      FencingClears(w, actor, installation, k);
      requests := [RecordFence(actor, installation, k, true, true)] + [];
      StepsFirst(w, RecordFence(actor, installation, k, true, true), []);
    } else {
      var e :| e in OpenEffects(w.state, k);
      var first := ReconcileEffect(actor, installation, e, Failed);
      OpenIsStored(w.state, k, e);
      ReconcilingClears(w, actor, installation, e);
      FewerOpen(w, actor, installation, k, e);
      var next := GitSafety.Step(w, first);
      StillClearing(w.state, next.state, actor, installation, k);
      var rest := ClearOne(next, actor, installation, k);
      requests := [first] + rest;
      StepsFirst(w, first, rest);
      OnlyClearsTransitive(w.state, next.state, GitSafety.Run(w, requests).state);
    }
  }

  lemma OpenIsStored(s: State, k: string, e: string)
    requires e in OpenEffects(s, k)
    ensures e in s.effects && Unresolved(s.effects[e])
  {
  }

  lemma StillClearing(s: State, t: State, actor: string, installation: string, k: string)
    requires OnlyClears(s, t) && ActiveAdministrator(s, actor, installation) && k in s.handoffs
    ensures ActiveAdministrator(t, actor, installation) && k in t.handoffs
  {
  }

  lemma FewerOpen(w: GitSafety.World, actor: string, installation: string, k: string, e: string)
    requires ActiveAdministrator(w.state, actor, installation) && e in OpenEffects(w.state, k)
    ensures var after := GitSafety.Step(w, ReconcileEffect(actor, installation, e, Failed)).state;
            OpenEffects(after, k) == OpenEffects(w.state, k) - {e}
  {
    var after := ReconcileEffectOf(w.state, ReconcileEffect(actor, installation, e, Failed)).value.0;
    forall f ensures f in OpenEffects(after, k) <==> f in OpenEffects(w.state, k) - {e} {
    }
  }

  /** All of them can. */
  lemma {:induction false} ClearAll(w: GitSafety.World, actor: string, installation: string, keys: set<string>)
    returns (requests: seq<Request>)
    requires ActiveAdministrator(w.state, actor, installation) && forall k :: k in keys ==> k in w.state.handoffs
    ensures var after := GitSafety.Run(w, requests).state;
            OnlyClears(w.state, after) && forall k :: k in keys ==> Cleared(after, k)
    decreases |keys|
  {
    hide Perform, Cleared, GitSafety.Step;
    requests := [];
    if keys == {} {
      OnlyClearsSame(w.state);
    } else {
      var k :| k in keys;
      var first := ClearOne(w, actor, installation, k);
      var middle := GitSafety.Run(w, first);
      StillClearing(w.state, middle.state, actor, installation, k);
      var rest := ClearAll(middle, actor, installation, keys - {k});
      RunsInTwo(w, first, rest);
      requests := first + rest;
      var after := GitSafety.Run(w, requests).state;
      OnlyClearsTransitive(w.state, middle.state, after);
      assert Cleared(after, k);
    }
  }

  lemma {:induction false} RunsInTwo(w: GitSafety.World, first: seq<Request>, rest: seq<Request>)
    ensures GitSafety.Run(w, first + rest) == GitSafety.Run(GitSafety.Run(w, first), rest)
    decreases |rest|
  {
    hide GitSafety.Step;
    if rest == [] {
      assert first + rest == first;
    } else {
      var n := |rest| - 1;
      assert (first + rest)[..|first|+n] == first + rest[..n] && (first + rest)[|first|+n] == rest[n];
      RunsInTwo(w, first, rest[..n]);
    }
  }

  /** The change can be announced: it says something, none is pending, and nothing it concerns is in a handoff. */
  predicate MayChange(s: State, r: Request) {
    && r.BeginMemberChange? && ActiveAdministrator(s, r.actor, r.installation) && r.member in s.members
    && (r.active == Some(false) || r.projects.Some?) && MemberKey(r.member) !in s.changes
    && forall k :: k in Concerned(s, r) ==> k !in s.handoffs
  }

  lemma ChangeBegins(w: GitSafety.World, r: Request)
    requires GitSafety.Inv(w.state) && MayChange(w.state, r)
    ensures var after := GitSafety.Step(w, r).state;
            && Perform(w.sequence, w.state, r).Some?
            && after.members == w.state.members && after.installations == w.state.installations
            && MemberKey(r.member) in after.changes
            && after.changes[MemberKey(r.member)] == Change(r.member, r.active, r.projects, Concerned(w.state, r))
            && forall k :: k in Concerned(w.state, r) ==> k in after.handoffs && k in after.entities
  {
    hide ActiveAdministrator, Drained, HandoffFrom, GitSafety.Inv;
    var staged := Stage(w.state, Concerned(w.state, r), "");
    assert forall k :: k in Concerned(w.state, r) ==> k in w.state.entities;
  }

  /** From any state with the safety invariant, whatever permits and effects are open: an administrator can begin a
      membership change that may be announced, clear every handoff it opens, and complete it. */
  lemma MemberChangeCanComplete(w: GitSafety.World, r: Request) returns (requests: seq<Request>)
    requires GitSafety.Inv(w.state) && MayChange(w.state, r)
    ensures var after := GitSafety.Run(w, requests).state;
            var change := Change(r.member, r.active, r.projects, Concerned(w.state, r));
            && r.member in after.members
            && GitMembership.Changed(w.state.members[r.member], change, after.members[r.member])
            && forall k :: k in Concerned(w.state, r) ==> k in after.entities && after.entities[k].owner == Some("")
  {
    hide Perform, Cleared, Concerned, GitSafety.Inv, GitMembership.Changed, GitSafety.Run, GitSafety.Step;
    var key, concerned := MemberKey(r.member), Concerned(w.state, r);
    ChangeBegins(w, r);
    GitSafety.PerformKeeps(w.sequence, w.state, r);
    var begun := GitSafety.Step(w, r);
    StepIsPerform(w, r);
    StillAdministers(w.state, begun.state, r.actor, r.installation);
    var clearing := ClearAll(begun, r.actor, r.installation, concerned);
    var clear := GitSafety.Run(begun, clearing);
    InvAlong(begun, clearing);
    StillAdministers(begun.state, clear.state, r.actor, r.installation);
    var complete := CompleteChange(r.actor, r.installation, key);
    ChangeCompletes(clear, complete, concerned);
    StepIsPerform(clear, complete);
    GitMembership.MembersStepExactly(clear.sequence, clear.state, complete, r.member);
    forall k | k in concerned ensures var after := GitSafety.Step(clear, complete).state;
                                      k in after.entities && after.entities[k].owner == Some("") {
      GitAuthority.OwnerMovesExactly(clear.sequence, clear.state, complete, k);
    }
    RunsInTwo(begun, clearing, [complete]);
    OneStep(clear, complete);
    StepsFirst(w, r, clearing + [complete]);
    requests := [r] + (clearing + [complete]);
  }

  lemma StepIsPerform(w: GitSafety.World, r: Request)
    requires Perform(w.sequence, w.state, r).Some?
    ensures GitSafety.Step(w, r).state == Perform(w.sequence, w.state, r).value.0
  {
  }

  lemma OneStep(w: GitSafety.World, r: Request)
    ensures GitSafety.Run(w, [r]) == GitSafety.Step(w, r)
  {
    assert [r][..0] == [];
  }

  lemma StillAdministers(s: State, t: State, actor: string, installation: string)
    requires t.members == s.members && t.installations == s.installations && ActiveAdministrator(s, actor, installation)
    ensures ActiveAdministrator(t, actor, installation)
  {
  }

  lemma {:induction false} InvAlong(w: GitSafety.World, requests: seq<Request>)
    requires GitSafety.Inv(w.state)
    ensures GitSafety.Inv(GitSafety.Run(w, requests).state)
  {
    hide GitSafety.Inv, Perform;
    if requests != [] {
      InvAlong(w, requests[..|requests|-1]);
      var before := GitSafety.Run(w, requests[..|requests|-1]);
      GitSafety.PerformKeeps(before.sequence, before.state, requests[|requests|-1]);
    }
  }

  lemma ChangeCompletes(w: GitSafety.World, complete: Request, concerned: set<string>)
    requires complete.CompleteChange? && ActiveAdministrator(w.state, complete.actor, complete.installation)
    requires complete.key.MemberKey? && complete.key in w.state.changes
    requires w.state.changes[complete.key].entities == concerned
    requires w.state.changes[complete.key].member in w.state.members
    requires forall k :: k in concerned ==> k in w.state.entities && Cleared(w.state, k)
    ensures Perform(w.sequence, w.state, complete).Some?
  {
    hide Cleared, Transfer, Narrowed, ActiveAdministrator;
  }
}
