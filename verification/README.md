# Coordination, scheduling and clean-up, modelled and proved in Dafny

The repository lets several installations work on one garden of tasks.  This project models the parts
whose correctness spans several operations and proves what they promise.

- **The shared Git state** (`src/garden/git_coordination.py`).  `GitState` gives the meaning of each
  transaction on the JSON document as a function; `GitDraft` is the code of the `mutate` closures, a draft
  changed in place and proved against those functions.  `GitSafety` proves what every transaction keeps,
  `GitHandoffs` and `GitRuns` what holds for clients that keep to the adapter's discipline.  `GitVersions`
  (optimistic concurrency), `GitAuthority` (owners and handoffs), `GitMembership`, `GitRows` (claims, permits
  and effects) and `GitResults` say, table by table and over whole runs, exactly what accepted transactions
  leave behind and report, and `GitProgress` what can always be brought to its end.  `GitChain`
  models the commits behind the ref, `GitTransact` one client's retry loop, and `GitClients` any number of
  interleaved clients whose pushes may be delayed, lost, refused or accepted without acknowledgement.
  `GitClientSafety`, `GitProvenance` and `GitAdapter` prove the protocol correct and carry the results about
  handoffs over to every network of adapter clients.  `GitBlank` and `GitTwins` say exactly where two of the
  promises fail.  `GitHistory` is the validation of the ref's history, from its root or from a checkpoint.
- **The SQL coordinator** (`src/garden/coordination.py`).  `CoordinatorModel` gives the meaning of each
  transaction on the tables, `CoordinatorService` is the class whose methods update the tables in place,
  `CoordinatorSafety` is the invariant of every run, and `CoordinatorRuns` proves what follows for whole runs:
  fences, leases, superseded claims, open effects, reassignments and replays.  `CoordinatorAuthority` and
  `CoordinatorTables` say exactly what every call makes of every table and what a row then says about the run
  behind it, and `CoordinatorProgress` how a reassignment can always be completed.  `Reservations` is the pools.
- **The run-reference scan** (`src/garden/branch_cleanup.py`): `RunReferences`, an Aho-Corasick automaton
  built in place and proved equal to the per-id search.
- **Branch clean-up** (`src/garden/branch_cleanup.py`, `src/garden/gitops.py`): `BranchCleanup`, on the
  commit graph of `CommitGraph`.
- **The task graph** (`src/garden/graph.py`): `Graph`.
- **Test shards** (`scripts/pytest_shards.py`): `Shards`.
- **Layered configuration** (`src/garden/config.py`): `ConfigMerge`.

Code that updates state in place is a class or a method with loops here, and its contract equates the new
state with a function of the old one; the safety lemmas are about those functions.  Clocks, the order in
which others act, and what the network does are parameters, so every theorem holds for all of them.

The straight-line methods of `GitDraft.Draft` and of the coordinator compute what the function of the same
transaction says and have no row of their own below; the rows name what is proved about those functions.

Six results are about where the code falls short of its own promise.  Each comes with
the exact condition, for all inputs.

- An effect's body can run twice (`GitTwins.BodyRunsTwice`).  A commit is its content, the author and a time
  in seconds, and the document holds nothing random.  Two processes of one installation that admit the same
  effect on the same head in the same second therefore build one and the same commit, and Git answers the
  second push as up to date before it compares the lease.  Any two such attempts in any reachable world can
  both run the body (`GitTwins.TwinsRunTwice`), and nothing else lets a body run twice
  (`GitClientSafety.BodiesShareOneCommit`), so it runs at most once as long as the stamps of attempts on one
  parent differ (`GitClientSafety.BodyRunsAtMostOnce`).
- A lifecycle handoff takes a claim from an installation with a blank name for no claim
  (`GitBlank.BlankInstallationMoves`, `GitBlank.BlankInstallationStops`).  Authority moves under an open effect
  exactly if the task of such an entity is inherited (`GitBlank.MovesOpenExactly`, over whole runs
  `GitBlank.OpenEffectPinsExactly`), and a handoff is newly flagged as stopped under an open effect or permit
  exactly if such an entity is staged (`GitBlank.FlagsOpenExactly`).
- A permit that is written again without a status loses its fence (`GitRuns.FencedPermitReopens`): the row
  is stored as requested, not merged with the current one.  An apply adds a blocker to a draining entity
  exactly if it does this (`GitRuns.GrowsExactlyIfReopened`).  The adapter never does.
- Two applies for one version of an entity can both be accepted (`GitVersions.UpdateIsLost`), because a patch
  may name the version itself and the step of one is added to what it names.  One of them is refused, whatever
  comes in between, as long as no accepted request names the entity's version (`GitVersions.NoLostUpdate`), and
  an apply leaves the version it expected exactly if its patch names the one before
  (`GitVersions.StaleGoesUnnoticedExactly`).
- `setting_source` can name a document whose value was dropped (`ConfigMerge.StaleSource`), because it merges
  the setting's parts without the documents that replace a whole mapping above it by a value.  What the merged
  configuration holds under a key is decided by the documents after the last such cut
  (`ConfigMerge.CutDecides`); the owners computed, and the names returned, are right exactly if the documents
  before it add none (`ConfigMerge.SettingSourceExact`, `ConfigMerge.ReturnedNamesExact`).
- The greedy sharding leaves a shard empty exactly when too few files have a size; the contract of
  `Shards.Shards` gives the condition.

Run `dafny verify dfyconfig.toml` to check everything.

## Model

| member | source | states |
|---|---|---|
| GitSafety.BootstrapKeeps | src/garden/git_coordination.py:241-259 | bootstrapping, which needs a state at sequence zero without members, installations, entities, claims, permits or effects, keeps the safety invariant whatever it installs |
| GitDraft.Draft.Apply | src/garden/git_coordination.py:588-787 | an apply accepts exactly the requests that ApplyChanges accepts, leaves exactly that state, and returns the sequence number and the unresolved effects |
| GitVersions.AcceptedFindsExpected | src/garden/git_coordination.py:609-611 | an accepted apply or handoff request finds every entity it names at exactly the expected version, zero if it is absent |
| GitVersions.ApplyCounts | src/garden/git_coordination.py:632-648 | after any list of patches the stored version is the old one counted up once per patch of the entity, from the version a patch names if it names one |
| GitVersions.NoLostUpdate | src/garden/git_coordination.py:609-648 | of two requests for the same version of an entity, of which the first writes it, the second is refused whatever both carry and whatever comes in between, unless an accepted request names the version |
| GitVersions.StaleGoesUnnoticedExactly | src/garden/git_coordination.py:609-648 | after an accepted apply for version v the entity has version v again if and only if its patch names v - 1 |
| GitVersions.UpdateIsLost | src/garden/git_coordination.py:609-648 | a run in which two applies for version 1 of one task are both accepted and the second overwrites the first |
| GitDraft.Draft.Index | src/garden/git_coordination.py:698-703 | every claim operation id leads to a claim that carries it |
| GitDraft.Draft.OwnersBlocked | src/garden/git_coordination.py:755-780 | a patch that names an owner is refused while any effect or permit of the entity is unresolved |
| GitSafety.BeginHandoffKeeps | src/garden/git_coordination.py:864-895 | beginning a handoff keeps owner, generation and claim of the entity, and records the authority that the handoff will move |
| GitDraft.Draft.ReconcileInherited | src/garden/git_coordination.py:909-950 | the loop over the tasks gives the state and the affected and pending tasks of the fold of the single steps |
| GitDraft.Draft.StageAll | src/garden/git_coordination.py:955-975 | staging entities one by one in any order gives the simultaneous stage, and is refused if one already has a handoff |
| GitDraft.Draft.BeginMemberChange | src/garden/git_coordination.py:987-1013 | drains exactly the entities that disabling the member or narrowing its projects concerns |
| GitDraft.Draft.BeginRevocation | src/garden/git_coordination.py:1027-1047 | drains exactly the entities claimed from the installation |
| GitSafety.EnrollKeeps | src/garden/git_coordination.py:1061-1076 | enrolling, also of a revoked installation, leaves every claim with an enrolled installation of its actor |
| GitDraft.Draft.TransferAll | src/garden/git_coordination.py:1108-1119 | transferring entities one by one in any order gives the simultaneous transfer |
| GitDraft.Draft.CompleteChange | src/garden/git_coordination.py:1088-1133 | moves all listed entities to nobody and then disables, narrows or revokes, if every one of them is cleared |
| GitHandoffs.SmallStepsAreQuiet | src/garden/git_coordination.py:1143-1154 | acknowledging a stop, beginning a handoff, enrolling and archiving late evidence add no blocker, move no authority and flag no handoff while something is open |
| GitDraft.Draft.FenceOpenPermits | src/garden/git_coordination.py:1178-1196 | the loop fences exactly the open permits of the entity's claim |
| GitHandoffs.FencedIsClear | src/garden/git_coordination.py:1167-1199 | once its permits are fenced and no effect of it is open, nothing blocks the entity |
| GitSafety.SmallStepsKeep | src/garden/git_coordination.py:1143-1254 | stop acknowledgements, fences, late evidence and effect reconciliations keep the invariant and move no authority |
| GitHandoffs.ReconcileIsQuiet | src/garden/git_coordination.py:1242-1254 | resolving an effect only removes blockers and opens nothing |
| GitSafety.CompleteHandoffKeeps | src/garden/git_coordination.py:1264-1303 | completing a handoff keeps the invariant and moves the entity by one generation to a member that may own it, or to nobody, with the claim released |
| GitAuthority.CompletionHandsOver | src/garden/git_coordination.py:1264-1303 | a completed handoff gives the entity to the handoff's pending owner in the next generation, ends draining, claim and handoff, keeps the handoff as evidence, names the stored owner and generation, and touches nothing else |
| GitAuthority.OwnerMovesExactly | src/garden/git_coordination.py:588-1303 | any accepted transaction of anyone leaves an entity's owner and generation alone, or gives it to the pending owner, to nobody or to the inheriting owner, exactly if it completes its handoff, completes a change that lists it, or inherits its unclaimed task |
| GitAuthority.HandoffsStepExactly | src/garden/git_coordination.py:864-1303 | any accepted transaction opens, flags and ends exactly the handoffs it asks for; a standing handoff keeps its pending owner and what it remembers |
| GitAuthority.HandoffGivesToPending | src/garden/git_coordination.py:864-1303 | over any run, completing a handoff gives the entity to the owner that the request which opened this handoff asked for |
| GitMembership.ChangesStepExactly | src/garden/git_coordination.py:987-1133 | changes are announced once with what they concern, stand as announced, and disappear by being completed |
| GitMembership.MembersStepExactly | src/garden/git_coordination.py:1120-1133 | only a completed change alters a member, and exactly as announced |
| GitMembership.InstallationsStepExactly | src/garden/git_coordination.py:1061-1133 | only an enrolment and a completed revocation alter whom an installation belongs to |
| GitMembership.ChangeTakesEffect | src/garden/git_coordination.py:987-1133 | over any run, completing a membership change leaves the member as the request that began it asked and gives everything it concerned to nobody |
| GitRows.ClaimsStepExactly | src/garden/git_coordination.py:649-697 | any accepted transaction stores the claims it carries for its actor, releases those of the entities it moves, and leaves every other claim as it is |
| GitRows.EvidenceStepsExactly | src/garden/git_coordination.py:698-744 | any accepted transaction stores, fences or reconciles exactly the permits and effects it names |
| GitRows.ClaimStandsWithGeneration | src/garden/git_coordination.py:649-697 | over any run a claim stands unchanged as long as its entity's generation stands |
| GitRows.OutcomeIsLastReport | src/garden/git_coordination.py:723-744 | over any run an effect keeps its target, and its outcome is the last one that an accepted request reported |
| GitResults.ResultsDescribe | src/garden/git_coordination.py:782-1303 | the result of every accepted transaction describes the state it leaves |
| GitResults.InheritanceReports | src/garden/git_coordination.py:909-950 | inheriting reports exactly the listed tasks it created, staged or moved, and exactly those that wait |
| GitProgress.HandoffCanComplete | src/garden/git_coordination.py:1167-1303 | from any state with the invariant, an active administrator can reconcile what is open, fence, and complete a pending handoff to its pending owner |
| GitProgress.MemberChangeCanComplete | src/garden/git_coordination.py:987-1254 | from any state with the invariant, an active administrator can begin a membership change whose entities are in no handoff, clear every handoff it opens, and complete it |
| GitProgress.EffectCallSucceeds | src/garden/git_coordination.py:1537-1623 | an owner's effect call that nobody disturbs holds its claim, runs its body and records how it ended |
| GitProgress.LosingIsNotFinal | src/garden/git_coordination.py:508-556 | among any clients, one that lost a comparison and has an attempt left starts over, and is recorded if nobody disturbs that attempt |
| GitDraft.Draft.Mutate | src/garden/git_coordination.py:534-535 | any transaction's code computes the transaction's meaning |
| GitSafety.RunsKeepInv | src/garden/git_coordination.py:588-1303 | in every reachable state each claim's actor is the entity's owner and an active member, its installation is enrolled to it and its generation is the entity's; each handoff still describes the authority it will move; pending changes list every claim they concern |
| GitSafety.PerformKeeps | src/garden/git_coordination.py:588-1303 | every accepted transaction keeps that invariant, and moves an owner or generation only by one generation, with the claim released, to nobody or to an authorized member |
| GitSafety.CompleteChangeKeeps | src/garden/git_coordination.py:1088-1133 | a member is disabled and an installation revoked without leaving a claim behind, although claims came and went while the change was draining |
| GitSafety.PatchesKeepAuthority | src/garden/git_coordination.py:632-648 | no list of patches moves the authority of an existing entity |
| GitSafety.AdmittedClaimsHold | src/garden/git_coordination.py:649-697 | no list of claim rows admits a claim that breaks the invariant or escapes a pending change |
| GitSafety.InheritTasksKeep | src/garden/git_coordination.py:909-950 | inheriting any list of tasks keeps the invariant and moves each entity at most once, to the one owner |
| GitHandoffs.PerformIsOrderly | src/garden/git_coordination.py:792-812 | for disciplined clients every transaction keeps handoffs clear and effects claimed, moves authority only where nothing is open, and adds no blocker to a draining entity |
| GitHandoffs.ApplyIsOrderly | src/garden/git_coordination.py:588-744 | the same for apply, whatever rows it carries |
| GitHandoffs.RowsReopen | src/garden/git_coordination.py:712-744 | a stored permit is open after the rows exactly if it was open or a row for it leaves the status out |
| GitHandoffs.EffectRowsAdmit | src/garden/git_coordination.py:723-744 | whatever effect rows are admitted, stored effects keep claim and scope and only resolve, and new ones belong to a claim whose entity does not drain |
| GitHandoffs.InheritTasksAreQuiet | src/garden/git_coordination.py:909-950 | inheriting changes no claim, permit or effect, and moves only entities without blockers |
| GitHandoffs.SettlingShrinks | src/garden/git_coordination.py:792-812 | releasing claims, closing permits and resolving effects only removes blockers |
| GitRuns.AcknowledgedStaysClear | src/garden/git_coordination.py:1143-1199 | in every state that disciplined clients reach, a stop-acknowledged or externally fenced handoff has no blockers |
| GitRuns.DrainingOnlySettles | src/garden/git_coordination.py:698-722 | over any disciplined run, while an entity drains its blocker set never grows |
| GitRuns.OpenEffectPins | src/garden/git_coordination.py:1095-1116 | over any disciplined run, an effect that stays open keeps its entity's owner, generation and claim |
| GitRuns.GenerationNamesOwner | src/garden/git_coordination.py:1095-1116 | in every run an entity's generation never falls, and while it stands the owner stands |
| GitRuns.GrowsExactlyIfReopened | src/garden/git_coordination.py:712-744 | an apply adds a blocker to a draining entity if and only if it writes a closed permit of its claim again without a status, while the permit's effect is stored as open or missing and no effect row of the request settles it |
| GitRuns.FencedPermitReopens | src/garden/git_coordination.py:712-744 | a concrete fenced handoff, reached from the empty state, that such a request blocks again |
| GitRuns.FencedIsReachable | src/garden/git_coordination.py:241-1199 | bootstrap, claim, permit, handoff and fence lead to that state |
| GitBlank.MovesOpenExactly | src/garden/git_coordination.py:909-975 | in any state with the invariant and for any request, an accepted transaction changes owner or generation of an entity with an open effect if and only if it inherits its task to another owner while no handoff is pending and the claim's installation is blank |
| GitBlank.InheritanceMovesExactly | src/garden/git_coordination.py:909-950 | for any list of tasks, inheriting moves an entity if and only if its task is listed, its owner is another one, no handoff is pending and its claim's installation is blank or there is no claim |
| GitBlank.OpenEffectPinsExactly | src/garden/git_coordination.py:909-975 | over any run of any clients, an effect that stays open keeps its entity's owner and generation if and only if no accepted request of the run inherits the task in that way; otherwise the generation has risen |
| GitBlank.FlagsOpenExactly | src/garden/git_coordination.py:955-975 | an accepted transaction leaves a handoff newly flagged as stopped or fenced with something open if and only if a lifecycle change stages an entity with blockers whose claim's installation is blank |
| GitBlank.EffectsNeverReopen | src/garden/git_coordination.py:723-744 | no transaction, by any client, opens a resolved effect again or changes its scope |
| GitBlank.BlankIsReachable | src/garden/git_coordination.py:241-744 | bootstrap, claim and effect by a blank installation lead to the example's state |
| GitBlank.BlankInstallationMoves | src/garden/git_coordination.py:965-974 | in that state inheriting the task moves its owner at once although its effect is open |
| GitBlank.BlankInstallationStops | src/garden/git_coordination.py:965-974 | and disabling the member leaves a handoff that counts as stopped |
| GitChain.AppliedAtMostOnce | src/garden/git_coordination.py:509-520 | on every valid chain an operation id is applied exactly as often as it is recorded, never more than once |
| GitChain.OperationsCountSequence | src/garden/git_coordination.py:536-544 | the number of recorded operations is the sequence number and the length of the chain |
| GitChain.OneLink | src/garden/git_coordination.py:509-544 | two links of one chain with the same operation id are the same link |
| GitChain.LedgerGrows | src/garden/git_coordination.py:536-544 | a recorded operation stays recorded with the same result |
| GitChain.ChainIsSafe | src/garden/git_coordination.py:499-569 | every accepted state on a chain keeps the safety invariant |
| GitTransact.Transact | src/garden/git_coordination.py:499-569 | exactly how the call ends, over what others land in each turn: turns lost by contention are followed by another until a turn decides or none is left, and a turn decides by the ledger read, a refusal, an accepted push, or the ledger read after a lost answer |
| GitTransact.StartsOver | src/garden/git_coordination.py:552-556 | a lost comparison that is not the last attempt is followed by another one |
| GitTransact.QuietTurnReturns | src/garden/git_coordination.py:547-549 | after contended turns only, a push heard on an unmoved ref returns the result of its own commit, unreplayed |
| GitTransact.RecordedTurnReplays | src/garden/git_coordination.py:510-520 | after contended turns only, a turn that reads the id returns the recorded result as a replay for the same inputs, and raises for other ones |
| GitTransact.RefusedTurnRaises | src/garden/git_coordination.py:534-535 | after contended turns only, a request that is refused on what is read raises and leaves the ref alone |
| GitTransact.LostTurnResolves | src/garden/git_coordination.py:557-568 | a push without an answer is resolved by the accepted history, and returns its result if it had taken effect |
| GitTransact.ContentionExhausts | src/garden/git_coordination.py:553-569 | contention in every turn raises and leaves nothing of the call on the chain |
| GitTransact.RaisesOnlyFor | src/garden/git_coordination.py:499-569 | a call raises only for an unusable id, a reused id, a refusal on a document it read, a lost answer without the operation on the chain, or contention in every turn |
| GitTransact.AnswersAreRecorded | src/garden/git_coordination.py:499-569 | however the turns went, the chain stays valid and only grows, every answer is the ledger's, and one that is no replay is of a commit this call added for an id that was not on the chain |
| GitTransact.Remote.Push | src/garden/git_coordination.py:456-466 | the ref moves exactly if it still is the expected commit and the push arrives; a push of the commit that the ref already is counts as accepted; a lost answer says nothing |
| GitTransact.Mutated | src/garden/git_coordination.py:534-545 | the document on top of another, computed on a copy; none only if the request is refused for some way to resolve claims with equal ids |
| GitClientSafety.TransactionsAreExact | src/garden/git_coordination.py:456-569 | however any number of clients and pushes interleave, each id is applied at most once, operations count the sequence, the state is safe, and every returned result is the recorded one |
| GitClientSafety.BodyRunsAtMostOnce | src/garden/git_coordination.py:1576-1615 | over all retries, crashes and lost acknowledgements an effect's body runs at most once per effect operation id, as long as the stamps of attempts for it on one parent differ |
| GitClientSafety.BodiesShareOneCommit | src/garden/git_coordination.py:447-466 | in every run, two calls that both run the body for one effect operation id pushed one and the same commit |
| GitTwins.TwinsRunTwice | src/garden/git_coordination.py:447-466 | in every world, two clients with equal commits on the head in flight for one effect both run the body if the pushes land and are heard |
| GitTwins.BodyRunsTwice | src/garden/git_coordination.py:1576-1615 | a run from the empty ref in which two processes of one installation run the body of one effect |
| GitClientSafety.ActKeeps | src/garden/git_coordination.py:499-569 | every step of every client keeps the protocol invariant |
| GitProvenance.SucceededMeansCompleted | src/garden/git_coordination.py:1608-1623 | an effect is recorded as succeeded only after its body returned normally, or by an explicit reconciliation |
| GitProvenance.SuccessIsReported | src/garden/git_coordination.py:723-744 | on a valid chain an effect has succeeded only if some link reported it |
| GitAdapter.ClaimIdsNameEntities | src/garden/git_coordination.py:1546-1561 | a claim operation id that the ledger records names one entity, whatever characters member, installation and scope consist of |
| GitAdapter.ChainIsDisciplinedRun | src/garden/git_coordination.py:1537-1623 | every chain that adapter clients build is a disciplined run of the transactions |
| GitAdapter.AdapterHandoffsStayClear | src/garden/git_coordination.py:1143-1199 | over every network of adapter clients, acknowledged and fenced handoffs have no blockers |
| GitAdapter.AdapterEffectsPin | src/garden/git_coordination.py:1565-1623 | between any accepted commit and a later head, an effect that is still open pins its entity's owner, generation and claim |
| GitHistory.ValidateHistory | src/garden/git_coordination.py:372-410 | the loop accepts exactly the listings whose commits each continue the one before |
| GitHistory.CheckpointChangesNothing | src/garden/git_coordination.py:335-410 | for every commit graph and every order in which a walk from the head lists the range, validating since an accepted ancestor accepts exactly the heads with a linear history, as validating from the root does |
| GitHistory.ParentsFirstIsListing | src/garden/git_coordination.py:384-392 | every order that puts parents before children is such a listing |
| GitHistory.Observer.Fetch | src/garden/git_coordination.py:307-370 | a head is accepted exactly if its history is linear and it descends from everything observed and validated before; the state is the head's |
| CoordinatorService.Coordinator.SetAuthority | src/garden/coordination.py:187-241 | commits exactly the reassignment, or refuses and changes nothing |
| CoordinatorAuthority.AuthorityStepsExactly | src/garden/coordination.py:187-429 | every call leaves a scope's row alone, or exactly with the requested owner and generation, the next version and the same fence counter, with the next fence, or with the next version |
| CoordinatorAuthority.OwnerIsLastNamed | src/garden/coordination.py:205-280 | after any run the stored owner and generation of a scope are those of the last accepted request that named them, and a scope is stored exactly if one did |
| CoordinatorAuthority.ClaimsStepExactly | src/garden/coordination.py:187-346 | every call leaves a claim alone, releases it by a reassignment, or stores the granted lease: the caller's, in the stored generation, under the next fence, from now for the requested seconds |
| CoordinatorAuthority.GrantGoesToNamed | src/garden/coordination.py:306-346 | after any run a claim is granted to the owner named last, in the generation named with it, until now plus the requested seconds |
| CoordinatorProgress.ReassignmentCanComplete | src/garden/coordination.py:187-551 | from any tables, an administrator can resolve what is open, reassign a scope and clear its handoff, and the new owner's claim is granted |
| CoordinatorProgress.OwnerIsGranted | src/garden/coordination.py:306-346 | the stored owner's claim is granted, as asked, when nothing is open and an earlier lease, if any, has ended |
| CoordinatorProgress.HolderCanWork | src/garden/coordination.py:389-531 | whoever holds a valid claim can move its scope on, begin a provider effect in the new version and report how it ended, and finds all of it stored |
| CoordinatorService.Coordinator.InitializeAuthority | src/garden/coordination.py:243-280 | installs all rows on a quiescent coordinator or none |
| CoordinatorService.Coordinator.AcquireClaim | src/garden/coordination.py:282-346 | grants the next fence exactly when the model does, and marks the handoffs ready |
| CoordinatorService.Coordinator.CloseHandoffs | src/garden/coordination.py:315-327 | the loop over the open handoffs marks all of them ready, or stops because some one of them is blocked, in whatever order the rows come |
| CoordinatorSafety.TransitionKeepsInv | src/garden/coordination.py:389-429 | a transition keeps claims and effects current while it raises the version, and its two journal rows keep the journal's ids unique |
| CoordinatorSafety.OutboxKeepsInv | src/garden/coordination.py:431-465 | finishing, reopening or superseding a journal row keeps the invariant |
| CoordinatorService.Coordinator.FinishEffect | src/garden/coordination.py:504-531 | the row that the operation id selects is resolved once, by its actor or an administrator |
| CoordinatorService.Coordinator.AcknowledgeCancellation | src/garden/coordination.py:533-551 | acknowledges an open request of the right installation |
| CoordinatorService.Coordinator.ActiveTotals | src/garden/coordination.py:648-659 | the sums over the active rows of a pool |
| CoordinatorSafety.SetPoolKeepsInv | src/garden/coordination.py:596-615 | changing limits keeps every pool within its limits, since limits below the active sums are refused |
| CoordinatorSafety.CallKeepsInv | src/garden/coordination.py:187-708 | every call keeps: stored claims carry the latest fence, generation and owner and no open cancellation; open effects carry the current generation and fence; pools stay within limits; ids are unique |
| CoordinatorSafety.GrantKeepsInv | src/garden/coordination.py:315-346 | a grant keeps it, because no handoff is blocked and no effect is open |
| CoordinatorSafety.ReassignKeepsInv | src/garden/coordination.py:205-241 | a reassignment keeps it, because no effect is open and its handoff guards the new cancellation |
| CoordinatorSafety.BeginEffectKeepsInv | src/garden/coordination.py:467-502 | a new effect carries the generation and fence of its scope, because its claim is validated |
| CoordinatorSafety.FinishEffectKeepsInv | src/garden/coordination.py:504-531 | resolving an effect keeps the invariant |
| CoordinatorSafety.ReservationKeepsInv | src/garden/coordination.py:617-708 | reserving, by pool or below a phase claim, keeps every pool within its limits |
| CoordinatorSafety.ReleaseKeepsInv | src/garden/coordination.py:671-684 | releasing keeps every pool within its limits |
| CoordinatorRuns.RunsAreSafe | src/garden/coordination.py:187-708 | after any run the invariant holds, fences rise strictly with every grant of a scope, and leases of one generation never overlap, whatever the clock reads |
| CoordinatorRuns.SupersededNeverValidates | src/garden/coordination.py:724-759 | a claim superseded by a later grant or a reassignment never validates again, for anyone, at any time, whatever is replayed |
| CoordinatorRuns.OpenEffectHoldsScope | src/garden/coordination.py:467-531 | an open effect carries its scope's generation and latest fence, so nothing was granted or reassigned past it |
| CoordinatorRuns.NoOldEffectWaits | src/garden/coordination.py:576-594 | the handoff check for effects of old generations never finds one |
| CoordinatorRuns.ReassignmentOpens | src/garden/coordination.py:216-236 | reassigning an existing scope opens a handoff, removes the claim and requests its cancellation |
| CoordinatorRuns.FirstGrantAfterReassignment | src/garden/coordination.py:315-327 | the first claim after a reassignment, however late, finds every cancellation acknowledged and no older projection waiting |
| CoordinatorRuns.ReplayAnswersTheSame | src/garden/coordination.py:748-767 | an accepted request repeated at any later time gets the same answer and changes nothing |
| CoordinatorTables.HandoffsStepExactly | src/garden/coordination.py:216-338 | every call opens, readies and leaves exactly the handoffs, and requests and acknowledges exactly the cancellations, that it should |
| CoordinatorTables.EvidenceStepsExactly | src/garden/coordination.py:389-429 | evidence is stored once, under the operation of its transition |
| CoordinatorTables.OutboxStepsExactly | src/garden/coordination.py:389-465 | a transition appends its two rows, finishing and superseding mark one row as asked, and nothing else touches the journal |
| CoordinatorTables.StatusIsLastMark | src/garden/coordination.py:431-465 | over any run a journal row keeps its content, and its status is the last one accepted for it |
| CoordinatorTables.EffectsStepExactly | src/garden/coordination.py:467-531 | an effect is begun pending as the call says and takes exactly the outcome and result reported of it |
| CoordinatorTables.StatusIsLastReported | src/garden/coordination.py:467-531 | over any run an effect's status and result are the last ones reported since it was begun |
| Reservations.ReserveKeepsLimits | src/garden/coordination.py:636-669 | a reservation keeps every pool within its limits |
| Reservations.ReleaseKeepsLimits | src/garden/coordination.py:671-684 | so does a release |
| Reservations.ReleasedSum | src/garden/coordination.py:657-659 | a release lowers the active sums by exactly its row |
| Reservations.ReservedSum | src/garden/coordination.py:636-669 | a new reservation raises its own pool's sums by exactly what it asks for, and a repeated one changes nothing |
| Reservations.FittingIsReserved | src/garden/coordination.py:636-684 | a new reservation that fits the limits is accepted, and releasing it restores the pool's sums |
| Reservations.ReplayNeverReactivates | src/garden/coordination.py:640-647 | a released reservation that is requested again stays released |
| RunReferences.FindReferences | src/garden/branch_cleanup.py:44-92 | the automaton returns exactly the non-empty ids that the boundary-delimited search finds, and its failure hops never exceed the text's length |
| RunReferences.BuildTrie | src/garden/branch_cleanup.py:50-64 | the trie holds exactly the prefixes of the ids, and each id at its node |
| RunReferences.LinkFailures | src/garden/branch_cleanup.py:66-75 | breadth first, every node gets the longest proper suffix in the trie and all ids that end its word |
| RunReferences.Advance | src/garden/branch_cleanup.py:80-82 | following failures reaches the longest suffix of the text read, and hops are paid for by depth |
| RunReferences.Scan | src/garden/branch_cleanup.py:77-92 | the pass collects every delimited id, also when it stops early |
| RunReferences.AdvanceIsLongest | src/garden/branch_cleanup.py:80-82 | the node reached spells the longest suffix in the trie |
| RunReferences.MergedOutputs | src/garden/branch_cleanup.py:75-75 | own and inherited outputs together are all ids that end the word |
| BranchCleanup.ReferencedRuns | src/garden/branch_cleanup.py:125-133 | the per-branch recheck and the global scan find the same run ids |
| BranchCleanup.RemovableIsPreserved | src/garden/branch_cleanup.py:143-207 | a branch is removable exactly if the remote is known and no ref is left, or nothing needs it and every head is in the base or an exact merge record; and it is needed exactly if a ref is left and something needs it |
| BranchCleanup.RemovalLosesNothing | src/garden/branch_cleanup.py:195-204 | removing a ref on a preserved head makes a commit unreachable only if it is behind a recorded merged head |
| BranchCleanup.Repository.DeleteRemoteBranch | src/garden/gitops.py:587-606 | the ref disappears if and only if it names the expected head both when it is read and when the push arrives, whatever others do in between, also if the answer to the push is then lost and an error reported |
| BranchCleanup.Repository.DeleteLocalBranch | src/garden/gitops.py:572-584 | the same for the local ref |
| BranchCleanup.Repository.DeleteDisposition | src/garden/branch_cleanup.py:211-239 | exactly when the remote ref goes, when the local one goes, when the call fails, and which refs are left; whatever goes still named the classified head and loses nothing unpreserved |
| BranchCleanup.Repository.Clean | src/garden/scheduler/cleanup.py:435-498 | the same for classification, recheck and deletion with other writers in between; an undisturbed sweep of a branch that is removable before and after leaves neither ref |
| Graph.TopologicalOrder | src/garden/graph.py:43-63 | a permutation with known dependencies first, in the order in which tasks become ready, or an error exactly if these contain a cycle, naming exactly the tasks that lead into one |
| Graph.OneReadyOrder | src/garden/graph.py:53-59 | there is only one such order, so the result is a function of the tasks |
| Graph.CyclicMeansReached | src/garden/graph.py:60-62 | a cycle exists exactly if some task leads into one |
| Graph.KahnDecides | src/garden/graph.py:54-62 | an empty queue with tasks left means a cycle, and otherwise none |
| Graph.OrderedReachesNoCycle | src/garden/graph.py:54-63 | a task that was ordered leads into no cycle |
| Graph.LeftoversReachCycle | src/garden/graph.py:60-62 | a task that was never ordered leads into a cycle |
| Graph.CriticalPath | src/garden/graph.py:145-161 | for an acyclic graph a chain of non-terminal tasks linked by dependencies, and no longer one exists |
| Graph.LongestThrough | src/garden/graph.py:149-157 | the longest chain that ends in one task, from those of its dependencies |
| Graph.ChainBound | src/garden/graph.py:152-157 | a chain through a task is one longer than the longest through its dependencies |
| Graph.Layers | src/garden/graph.py:225-239 | a visible task's layer is exactly the length of its longest visible chain, where a task also depends on the task it was discovered from if that one stands earlier in the order; so it is beyond its visible dependencies' |
| Shards.Shards | scripts/pytest_shards.py:16-29 | every file in exactly one shard, the fullest at most 4/3 - 1/(3 count) of any other assignment's fullest, the gap at most the largest file, and when a shard stays empty |
| Shards.SameForEveryListing | scripts/pytest_shards.py:20-29 | any two runs over the same files, listed in any order, agree on every shard and on the order within it |
| Shards.GreedyBound | scripts/pytest_shards.py:24-28 | the approximation bound for longest-first greedy placement against every other assignment |
| Shards.LargeFileFits | scripts/pytest_shards.py:24-28 | while files are large against the optimum, greedy placement is optimal |
| Shards.SmallFileFits | scripts/pytest_shards.py:24-28 | a small file on the lightest shard keeps the ratio |
| Shards.GreedyGap | scripts/pytest_shards.py:24-28 | fullest minus emptiest is at most the largest file |
| Shards.EveryShardUsed | scripts/pytest_shards.py:24-28 | every shard gets a file exactly if the count-1 largest files have a size |
| Shards.LoadsConserveTotal | scripts/pytest_shards.py:24-28 | the shard weights add up to the sizes of all files |
| Shards.AssignmentOf | scripts/pytest_shards.py:29-29 | every sharding is some assignment of files to shards, so the bound speaks of all of them |
| Shards.Distribute | scripts/pytest_shards.py:23-28 | the loop places every file greedily and keeps the weights |
| Shards.Lightest | scripts/pytest_shards.py:25-25 | the lightest bucket, the first of equals |
| ConfigMerge.OwnersMirrorValue | src/garden/config.py:53-60 | for any list of documents the owner tree has the shape of the merged value |
| ConfigMerge.LastWriterOwnsLeaf | src/garden/config.py:1176-1183 | every leaf's value and owner come from the last document that holds its path |
| ConfigMerge.MergeKeepsShape | src/garden/config.py:53-60 | merging one more document keeps the shapes equal |
| ConfigMerge.SettingSource | src/garden/config.py:555-585 | the names, in load order, of the documents that own parts of the separately merged setting, or the default |
| ConfigMerge.SettingSourceExact | src/garden/config.py:555-585 | for all documents, the owners it computes are the setting's owners in the merged configuration if and only if no document before the last cut writes a leaf of the setting that no later one writes |
| ConfigMerge.ReturnedNamesExact | src/garden/config.py:555-585 | the names it returns are those of the owners in the merged configuration if and only if every document that owns a part also owns one after the last cut |
| ConfigMerge.CutDecides | src/garden/config.py:1176-1183 | under any key the merged configuration holds what the documents after the last one that puts a value above the key merge to, with exactly their owners |
| ConfigMerge.StaleSource | src/garden/config.py:555-585 | three documents for which a document without surviving value is named |

## Left out

- Subprocesses, SQLite, JSON text, files, HTTP, timeouts and hashing: a SQL transaction is one atomic step, a Git push is a compare-and-swap whose answer may be lost, a commit or fingerprint is its content.
- Which exception a refused Git transaction raises; the coordinator's errors are modelled.
- The time and author of a commit are one stamp that the environment chooses and that may repeat.
- GitTransact.Transact: a read of the ref that fails raises at once; reads do not fail here.
- The pending-push obligation file: it only refuses further attempts, which the model's crash step covers.
- The ref: the model has one garden's ref that exists and stays; a deleted or rewritten ref is refused by `GitHistory.Observer.Fetch`.
- Reservations and policy pools inside the Git state: nothing fills the pools there.
- Projections, assignments and descriptive fields of handoffs and entities; order and repetition in the recovery list, which is a set here.
- Dict-shaped installation bindings and explicit JSON nulls in the Git state, legacy column migration and blank-scope effect rows in the coordinator: compatibility only.
- Coordinator calls for several gardens, the snapshot, retained stale evidence, attempt counters and projection rows.
- Progress of a pending authority change: completing a handoff of one of its entities makes it impossible to complete the change.
- "A disabled member owns nothing": a handoff to that member can still complete while the change drains; the statement proved is about claims.
- Task lists of `reconcile_inherited_task_owners` are taken after sorting and removing repeats.
- GitAdapter.AdapterEffectsPin: rows are applied only through the adapter's claims and effects, by installations with a name; every other transaction may be requested by anyone.
- GitAdapter.AdapterHandoffsStayClear: the same condition.
- An entity row holds some modelled field or none at all; a row with only descriptive fields is not modelled.
- GitProvenance.SucceededMeansCompleted: other program parts may apply anything but a row that reports success; they would report it without a body.
- GitHistory.Observer.Fetch: the listing is any order in which each commit but the head stands before one of its children, as every walk from the head gives; Git's walk itself is not modelled.
- The regular expression's class of word characters is a parameter of RunReferences.FindReferences.
- `sorted` in graph and shards is an insertion sort here; only its result matters.
- BranchCleanup.Repository.Clean: the facts gathered from tasks, runs and provider requests, the recheck's pull request lookups among them, are eight flags.
- BranchCleanup.Repository.DeleteLocalBranch: a local `update-ref` that fails for another reason than the ref's value is not modelled.
- ConfigMerge.SettingSource: the product's overrides and policy documents are not part of this model; the setting is looked up by its key path.
- Charts, status labels, validation of single settings, blocker lists and the other helpers of the graph module: they would add only easy members.
