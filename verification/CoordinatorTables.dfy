/** The other tables of the coordinator: exactly what every call makes of handoffs, cancellations, evidence, the
    journal and provider effects, and what a journal row or an effect says after a run. */
module CoordinatorTables {
  import opened Options
  import opened Reservations
  import opened CoordinatorModel
  import opened CoordinatorSafety
  import opened CoordinatorRuns
  import opened CoordinatorAuthority

  // ---- handoffs, cancellations and evidence -------------------------------------------------

  predicate Reassigns(db: Db, garden: string, call: Call, s: Scope) {
    Takes(db, garden, call) && call.DoSetAuthority? && call.s == s && s in db.authority
  }

  /** Reassigning a stored scope opens a handoff from the old owner to the new one, and a grant marks all of its
      scope's handoffs ready. */
  predicate HandoffStep(db: Db, garden: string, call: Call, after: Db, k: HandoffKey) {
    if Reassigns(db, garden, call, k.scope) && call.generation == k.toGeneration then
      && k in after.handoffs
      && after.handoffs[k] == Handoff(db.authority[k.scope].owner, call.owner, db.authority[k.scope].generation,
                                      db.authority[k.scope].version + 1, false)
    else if Claims(db, garden, call, k.scope) then
      && (k in after.handoffs <==> k in db.handoffs)
      && (k in db.handoffs ==> after.handoffs[k] == db.handoffs[k].(ready := true))
    else Same(db.handoffs, after.handoffs, k)
  }

  /** Reassigning a claimed scope requests its cancellation, and an acknowledgement is stored once. */
  predicate CancellationStep(db: Db, garden: string, call: Call, after: Db, k: CancelKey) {
    if Reassigns(db, garden, call, k.scope) && k.scope in db.claims
       && k == CancelKey(k.scope, db.claims[k.scope].installation, db.claims[k.scope].fence)
    then k in after.cancellations && !after.cancellations[k]
    else if call.DoAcknowledge? && AcknowledgeCancellation(db, call.p, garden, call.s, call.fence, call.requested).Done?
            && k == Acknowledged(call)
    then k in db.cancellations && !db.cancellations[k] && k in after.cancellations && after.cancellations[k]
    else Same(db.cancellations, after.cancellations, k)
  }

  /** Whose request an acknowledgement is about: the caller's, or for an administrator the one found open. */
  function Acknowledged(call: Call): CancelKey
    requires call.DoAcknowledge?
  {
    CancelKey(call.s, if call.p.role == Administrator && call.requested.Some? then call.requested.value
                      else call.p.installation, call.fence)
  }

  /** A transition stores its evidence under its operation, and evidence stands. */
  predicate EvidenceStep(db: Db, garden: string, call: Call, after: Db, e: string) {
    if Takes(db, garden, call) && call.DoTransition? && call.request.evidence == Some(e) then
      e !in db.evidence && e in after.evidence && after.evidence[e] == call.operation
    else Same(db.evidence, after.evidence, e)
  }

  lemma ReassignedRequests(db: Db, s: Scope, owner: string, generation: int, version: int)
    requires s in db.authority ==> HandoffKey(s, generation) !in db.handoffs
    ensures var after := Reassigned(db, s, owner, generation, version);
            after.handoffs ==
              if s !in db.authority then db.handoffs
              else db.handoffs[HandoffKey(s, generation) :=
                     Handoff(db.authority[s].owner, owner, db.authority[s].generation, version, false)]
  {
  }

  lemma GenerationIsNew(db: Db, s: Scope, generation: int)
    requires HandoffsPast(db.authority, db.handoffs) && (s in db.authority ==> db.authority[s].generation < generation)
    ensures HandoffKey(s, generation) in db.handoffs ==> s !in db.authority
  {
  }

  /** The handoffs and cancellations after a taken reassignment. */
  lemma ReassignmentRequests(db: Db, garden: string, call: Call)
    requires HandoffsPast(db.authority, db.handoffs) && call.DoSetAuthority?
    ensures var after := Next(db, garden, call);
            if Takes(db, garden, call) then
              && (HandoffKey(call.s, call.generation) in db.handoffs ==> call.s !in db.authority)
              && StoredVersion(db, call.s) == call.expectedVersion
              && after.handoffs ==
                   Reassigned(db, call.s, call.owner, call.generation, call.expectedVersion + 1).handoffs
              && after.cancellations ==
                   Reassigned(db, call.s, call.owner, call.generation, call.expectedVersion + 1).cancellations
            else after == db
  {
    ReassignmentTaken(db, garden, call);
    hide ScopeHasUnresolvedEffect, SetAuthority, Takes, Next, Reassigned, HandoffsPast, ReplyOf;
    if Takes(db, garden, call) {
      GenerationIsNew(db, call.s, call.generation);
    }
  }

  lemma ReassignmentHandoffs(db: Db, garden: string, call: Call, k: HandoffKey)
    requires HandoffsPast(db.authority, db.handoffs) && call.DoSetAuthority?
    ensures HandoffStep(db, garden, call, Next(db, garden, call), k)
  {
    ReassignmentRequests(db, garden, call);
    hide Takes, Next, Reassigned, HandoffsPast;
    if Takes(db, garden, call) {
      ReassignedRequests(db, call.s, call.owner, call.generation, call.expectedVersion + 1);
    }
  }

  lemma ReassignmentCancels(db: Db, garden: string, call: Call, c: CancelKey)
    requires HandoffsPast(db.authority, db.handoffs) && call.DoSetAuthority?
    ensures CancellationStep(db, garden, call, Next(db, garden, call), c)
  {
    ReassignmentRequests(db, garden, call);
    ReassignedCancellations(db, call.s, call.owner, call.generation, call.expectedVersion + 1);
    hide Takes, Next, HandoffsPast, AcknowledgeCancellation, Reassigned;
  }

  lemma ReassignedCancellations(db: Db, s: Scope, owner: string, generation: int, version: int)
    ensures Reassigned(db, s, owner, generation, version).cancellations ==
              if s !in db.authority || s !in db.claims then db.cancellations
              else db.cancellations[CancelKey(s, db.claims[s].installation, db.claims[s].fence) := false]
  {
  }

  lemma GrantReadies(db: Db, garden: string, call: Call, k: HandoffKey, c: CancelKey)
    requires call.DoClaim?
    ensures var after := Next(db, garden, call);
            HandoffStep(db, garden, call, after, k) && CancellationStep(db, garden, call, after, c)
  {
    hide SomeHandoffBlocked, ScopeHasUnresolvedEffect;
  }

  lemma Acknowledges(db: Db, garden: string, call: Call, c: CancelKey)
    requires call.DoAcknowledge?
    ensures CancellationStep(db, garden, call, Next(db, garden, call), c)
    ensures Next(db, garden, call).handoffs == db.handoffs
  {
  }

  lemma OthersKeepCancellations(db: Db, garden: string, call: Call)
    requires WellFormed(db, call) && !call.DoSetAuthority? && !call.DoClaim? && !call.DoAcknowledge?
    ensures Next(db, garden, call).handoffs == db.handoffs && Next(db, garden, call).cancellations == db.cancellations
  {
    hide Validates, Reserve, Release, SetPool, Find, HasPrefix, InstallRows, InstallError, Quiescent, Repeat;
  }

  lemma OthersKeepHandoffs(db: Db, garden: string, call: Call, k: HandoffKey, c: CancelKey)
    requires WellFormed(db, call) && !call.DoSetAuthority? && !call.DoClaim?
    ensures var after := Next(db, garden, call);
            HandoffStep(db, garden, call, after, k) && CancellationStep(db, garden, call, after, c)
  {
    hide Next, Takes;
    if call.DoAcknowledge? {
      Acknowledges(db, garden, call, c);
    } else {
      OthersKeepCancellations(db, garden, call);
    }
  }

  /** Every call in a state with the safety invariant. */
  lemma HandoffsStepExactly(db: Db, garden: string, call: Call, k: HandoffKey, c: CancelKey)
    requires Inv(db) && WellFormed(db, call)
    ensures var after := Next(db, garden, call);
            HandoffStep(db, garden, call, after, k) && CancellationStep(db, garden, call, after, c)
  {
    hide HandoffStep, CancellationStep, Next;
    if call.DoSetAuthority? {
      ReassignmentHandoffs(db, garden, call, k);
      ReassignmentCancels(db, garden, call, c);
    } else if call.DoClaim? {
      GrantReadies(db, garden, call, k, c);
    } else {
      OthersKeepHandoffs(db, garden, call, k, c);
    }
  }

  lemma TransitionKeepsEvidence(db: Db, garden: string, call: Call, e: string)
    requires WellFormed(db, call) && call.DoTransition?
    ensures EvidenceStep(db, garden, call, Next(db, garden, call), e)
  {
    TransitionTaken(db, garden, call);
    hide Transition, Takes, Next;
  }

  lemma RecordingKeepsEvidence(db: Db, garden: string, call: Call)
    requires WellFormed(db, call) && (call.DoInitialize? || call.DoClaim? || call.DoBeginEffect?)
    ensures Next(db, garden, call).evidence == db.evidence
  {
    hide Validates, InstallRows, InstallError, Quiescent, Repeat, SomeHandoffBlocked, ScopeHasUnresolvedEffect,
      HandoffsReady;
  }

  lemma OthersKeepEvidence(db: Db, garden: string, call: Call)
    requires WellFormed(db, call) && !Recording(call)
    ensures Next(db, garden, call).evidence == db.evidence
  {
    hide Validates, Reserve, Release, SetPool, Find, HasPrefix;
  }

  /** Every call, by anyone with any arguments. */
  lemma EvidenceStepsExactly(db: Db, garden: string, call: Call, e: string)
    requires WellFormed(db, call)
    ensures EvidenceStep(db, garden, call, Next(db, garden, call), e)
  {
    hide Next, Takes;
    if call.DoTransition? {
      TransitionKeepsEvidence(db, garden, call, e);
    } else if call.DoSetAuthority? {
      ReassignmentKeeps(db, garden, call);
    } else if Recording(call) {
      RecordingKeepsEvidence(db, garden, call);
    } else {
      OthersKeepEvidence(db, garden, call);
    }
  }

  lemma ReassignmentKeeps(db: Db, garden: string, call: Call)
    requires call.DoSetAuthority?
    ensures var after := Next(db, garden, call);
            after.evidence == db.evidence && after.outbox == db.outbox && after.effects == db.effects
  {
    ReassignmentTaken(db, garden, call);
    hide SetAuthority, Takes, Next, Reassigned, ScopeHasUnresolvedEffect;
    ReassignedKeepsOperations(db, call.s, call.owner, call.generation, call.expectedVersion + 1);
  }

  // ---- the journal --------------------------------------------------------------------------

  /** The status that the call gives the journal row, if it is accepted for that row. */
  function Marks(db: Db, garden: string, call: Call, id: nat): Option<OutboxStatus> {
    if call.DoFinishOutbox? && call.id == id && FinishOutbox(db, call.p, garden, id, call.version, call.success).Done?
    then Some(if call.success then Finished else Waiting)
    else if call.DoSupersede? && call.id == id && SupersedeOutbox(db, call.p, garden, id, call.version).Done?
    then Some(Superseded)
    else None
  }

  /** The two rows that a transition appends: the next version, the claim's fence and the state asked for. */
  predicate Appends(db: Db, call: Call, after: Db)
    requires WellFormed(db, call) && call.DoTransition?
  {
    && |after.outbox| == |db.outbox| + 2 && after.outbox[..|db.outbox|] == db.outbox
    && forall i :: |db.outbox| <= i < |after.outbox| ==>
         && after.outbox[i].operation == call.operation && after.outbox[i].scope == call.c.scope.name
         && after.outbox[i].version == StoredVersion(db, call.c.scope) + 1 && after.outbox[i].fence == call.c.fence
         && after.outbox[i].payload == call.request.newState && after.outbox[i].status == Waiting
         && after.outbox[i].kind == if i == |db.outbox| then "task_transition" else "git_projection"
  }

  /** Transitions append, finishing and superseding mark one row, and nothing else touches the journal. */
  predicate OutboxStep(db: Db, garden: string, call: Call, after: Db, id: nat)
    requires WellFormed(db, call)
  {
    if Takes(db, garden, call) && call.DoTransition? then Appends(db, call, after)
    else
      && |after.outbox| == |db.outbox|
      && (id < |db.outbox| ==>
            after.outbox[id] == if Marks(db, garden, call, id).None? then db.outbox[id]
                                else db.outbox[id].(status := Marks(db, garden, call, id).value))
  }

  lemma TransitionAppends(db: Db, garden: string, call: Call, id: nat)
    requires WellFormed(db, call) && call.DoTransition?
    ensures OutboxStep(db, garden, call, Next(db, garden, call), id)
  {
    TransitionTaken(db, garden, call);
    hide Transition, Takes, Next;
    var after := Next(db, garden, call);
    if Takes(db, garden, call) {
      assert after.outbox[..|db.outbox|] == db.outbox;
    }
  }

  lemma FinishMarks(db: Db, garden: string, call: Call, id: nat)
    requires call.DoFinishOutbox?
    ensures OutboxStep(db, garden, call, Next(db, garden, call), id)
  {
    hide SupersedeOutbox, Takes, Appends;
  }

  lemma SupersedingMarks(db: Db, garden: string, call: Call, id: nat)
    requires call.DoSupersede?
    ensures OutboxStep(db, garden, call, Next(db, garden, call), id)
  {
    hide FinishOutbox, Takes, Appends;
  }

  lemma OthersKeepOutbox(db: Db, garden: string, call: Call)
    requires WellFormed(db, call) && !call.DoTransition? && !call.DoFinishOutbox? && !call.DoSupersede?
             && !call.DoSetAuthority?
    ensures Next(db, garden, call).outbox == db.outbox
  {
    hide Validates, Reserve, Release, SetPool, Find, HasPrefix, InstallRows, InstallError, Quiescent, Repeat,
      SomeHandoffBlocked, ScopeHasUnresolvedEffect, HandoffsReady;
  }

  /** Every call, by anyone with any arguments. */
  lemma OutboxStepsExactly(db: Db, garden: string, call: Call, id: nat)
    requires WellFormed(db, call)
    ensures OutboxStep(db, garden, call, Next(db, garden, call), id)
  {
    hide Next, Appends;
    if call.DoTransition? {
      TransitionAppends(db, garden, call, id);
    } else if call.DoFinishOutbox? {
      FinishMarks(db, garden, call, id);
    } else if call.DoSupersede? {
      SupersedingMarks(db, garden, call, id);
    } else if call.DoSetAuthority? {
      ReassignmentKeeps(db, garden, call);
    } else {
      OthersKeepOutbox(db, garden, call);
    }
  }

  /** The status last given to the journal row on a run that starts with the row waiting or otherwise marked. */
  function LastMark(w: World, garden: string, calls: seq<Call>, id: nat): Option<OutboxStatus> {
    if calls == [] then None
    else
      var mark := Marks(Run(w, garden, calls[..|calls|-1]).db, garden, calls[|calls|-1], id);
      if mark.Some? then mark else LastMark(w, garden, calls[..|calls|-1], id)
  }

  /** Over any run a journal row keeps its place and its content, and its status is the last one accepted for it. */
  lemma {:induction false} StatusIsLastMark(w: World, garden: string, calls: seq<Call>, id: nat)
    requires id < |w.db.outbox|
    ensures var after := Run(w, garden, calls).db.outbox;
            && id < |after|
            && after[id] == if LastMark(w, garden, calls, id).None? then w.db.outbox[id]
                            else w.db.outbox[id].(status := LastMark(w, garden, calls, id).value)
  {
    hide Marks, Next, Granted, Takes;
    if calls != [] {
      var last := |calls| - 1;
      StatusIsLastMark(w, garden, calls[..last], id);
      var before := Run(w, garden, calls[..last]).db;
      if WellFormed(before, calls[last]) {
        OutboxStepsExactly(before, garden, calls[last], id);
        TransitionMarksNothing(before, garden, calls[last], id);
      } else {
        IllFormedMarksNothing(before, garden, calls[last], id);
      }
    }
  }

  lemma TransitionMarksNothing(db: Db, garden: string, call: Call, id: nat)
    requires WellFormed(db, call)
    ensures call.DoTransition? ==> Marks(db, garden, call, id).None?
  {
  }

  lemma IllFormedMarksNothing(db: Db, garden: string, call: Call, id: nat)
    requires !WellFormed(db, call)
    ensures Marks(db, garden, call, id).None?
  {
  }

  // ---- provider effects ---------------------------------------------------------------------

  predicate Begins(db: Db, garden: string, call: Call, k: EffectKey) {
    Takes(db, garden, call) && call.DoBeginEffect? && call.request.key == k
  }

  /** The outcome and result that the call resolves the effect to, if it is accepted and says something new. */
  function Resolves(db: Db, garden: string, call: Call, k: EffectKey): Option<(EffectStatus, string)> {
    if call.DoFinishEffect? && WellFormed(db, call) && call.selected == Some(k)
       && FinishEffect(db, call.p, garden, call.selected, call.outcome, call.result).Done?
    then Some((call.outcome, call.result)) else None
  }

  /** An effect is begun pending, under the claim and the request of the call, and takes the outcome and result
      that a call reports of it. */
  predicate EffectStep(db: Db, garden: string, call: Call, after: Db, k: EffectKey) {
    if Begins(db, garden, call, k) then
      && k in after.effects
      && after.effects[k] == Effect(call.operation, call.p.member, call.p.installation, call.c.scope, call.c.generation,
                                    call.c.fence, call.request.credential, call.request.precondition,
                                    call.request.request, Pending, "{}")
    else if Resolves(db, garden, call, k).Some? then
      var (status, result) := Resolves(db, garden, call, k).value;
      k in db.effects && k in after.effects && after.effects[k] == db.effects[k].(status := status, result := result)
    else Same(db.effects, after.effects, k)
  }

  lemma BeginningTaken(db: Db, garden: string, call: Call)
    requires WellFormed(db, call) && call.DoBeginEffect?
    ensures if Takes(db, garden, call) then
              Next(db, garden, call).effects == db.effects[call.request.key :=
                Effect(call.operation, call.p.member, call.p.installation, call.c.scope, call.c.generation,
                       call.c.fence, call.request.credential, call.request.precondition, call.request.request,
                       Pending, "{}")]
            else Next(db, garden, call) == db
  {
    hide Validates;
  }

  lemma BeginningStores(db: Db, garden: string, call: Call, k: EffectKey)
    requires WellFormed(db, call) && call.DoBeginEffect?
    ensures EffectStep(db, garden, call, Next(db, garden, call), k)
  {
    BeginningTaken(db, garden, call);
    hide BeginEffect, Takes, Next;
  }

  lemma FinishingStores(db: Db, garden: string, call: Call, k: EffectKey)
    requires WellFormed(db, call) && call.DoFinishEffect?
    ensures EffectStep(db, garden, call, Next(db, garden, call), k)
  {
  }

  lemma OthersKeepEffects(db: Db, garden: string, call: Call)
    requires WellFormed(db, call) && !call.DoBeginEffect? && !call.DoFinishEffect? && !call.DoSetAuthority?
    ensures Next(db, garden, call).effects == db.effects
  {
    hide Validates, Reserve, Release, SetPool, Find, HasPrefix, InstallRows, InstallError, Quiescent, Repeat,
      SomeHandoffBlocked, ScopeHasUnresolvedEffect, HandoffsReady;
  }

  /** Every call, by anyone with any arguments. */
  lemma EffectsStepExactly(db: Db, garden: string, call: Call, k: EffectKey)
    requires WellFormed(db, call)
    ensures EffectStep(db, garden, call, Next(db, garden, call), k)
  {
    hide Next, Takes;
    if call.DoBeginEffect? {
      BeginningStores(db, garden, call, k);
    } else if call.DoFinishEffect? {
      FinishingStores(db, garden, call, k);
    } else if call.DoSetAuthority? {
      ReassignmentKeeps(db, garden, call);
    } else {
      OthersKeepEffects(db, garden, call);
    }
  }

  /** The outcome last reported of the effect on the run, counted from when it was last begun. */
  function LastOutcome(w: World, garden: string, calls: seq<Call>, k: EffectKey): Option<(EffectStatus, string)> {
    if calls == [] then
      if k in w.db.effects then Some((w.db.effects[k].status, w.db.effects[k].result)) else None
    else
      var before, call := Run(w, garden, calls[..|calls|-1]).db, calls[|calls|-1];
      if Begins(before, garden, call, k) then Some((Pending, "{}"))
      else if Resolves(before, garden, call, k).Some? then Resolves(before, garden, call, k)
      else LastOutcome(w, garden, calls[..|calls|-1], k)
  }

  /** Over any run an effect's status and result are the ones last reported since it was begun. */
  lemma {:induction false} StatusIsLastReported(w: World, garden: string, calls: seq<Call>, k: EffectKey)
    ensures var after, last := Run(w, garden, calls).db.effects, LastOutcome(w, garden, calls, k);
            && (k in after <==> last.Some?)
            && (last.Some? ==> after[k].status == last.value.0 && after[k].result == last.value.1)
  {
    hide Begins, Resolves, Next, Granted;
    if calls != [] {
      var last := |calls| - 1;
      StatusIsLastReported(w, garden, calls[..last], k);
      var before := Run(w, garden, calls[..last]).db;
      if WellFormed(before, calls[last]) {
        EffectsStepExactly(before, garden, calls[last], k);
      } else {
        IllFormedReportsNothing(before, garden, calls[last], k);
      }
    }
  }

  lemma IllFormedReportsNothing(db: Db, garden: string, call: Call, k: EffectKey)
    requires !WellFormed(db, call)
    ensures !Begins(db, garden, call, k) && Resolves(db, garden, call, k).None?
  {
  }
}
