/** Any number of clients that transact over one ref.

    A client reads the ref, builds a commit and pushes it expecting the head it read.  The push may land
    at any later time or never; the client may hear the verdict, lose it, or crash; and it may start
    again with the same operation id.  Each of these is one step, and a run is any list of steps. */
module GitClients {
  import opened Options
  import opened GitState
  import opened GitChain

  const RETRIES := 5

  // ---- the adapter's requests ---------------------------------------------------------------

  function Decimal(n: nat): string {
    if n < 10 then ["0123456789"[n]] else Decimal(n / 10) + ["0123456789"[n % 10]]
  }

  function Shown(n: int): string { if n < 0 then "-" + Decimal(-n) else Decimal(n) }

  /** One call of the adapter's `effect`, by an enrolled member from its installation. */
  datatype EffectCall = EffectCall(member: string, installation: string, kind: string, scope: string, owner: string,
                                   generation: int, version: int, effectKey: string, provider: string)

  function EntityKey(e: EffectCall): string { e.kind + ":" + e.scope }

  function ClaimOperation(e: EffectCall): string {
    "claim:" + e.installation + ":" + EntityKey(e) + ":" + Shown(e.generation) + ":" + Shown(e.version)
  }

  function EffectOperation(e: EffectCall): string {
    "effect:" + e.installation + ":" + e.effectKey + ":" + Shown(e.generation)
  }

  function FinishOperation(e: EffectCall, ok: bool): string {
    "finish:" + EffectOperation(e) + ":" + if ok then "succeeded" else "unknown"
  }

  function ClaimRequest(e: EffectCall): Request {
    var row := ClaimRow(ClaimOperation(e), Some(e.kind), Some(e.scope), Some(e.owner), Some(e.generation), None, None);
    Apply(e.member, e.installation, map[EntityKey(e) := e.version],
          Changes([], [Rows(EntityKey(e), Some(row))], [], []), map[])
  }

  function Row(e: EffectCall, outcome: EffectOutcome): EffectRow {
    EffectRow(Some(ClaimOperation(e)), Some(e.provider), Some(EntityKey(e)), Some(e.effectKey), Some(outcome), None,
              None)
  }

  function AdmitRequest(e: EffectCall): Request {
    var permit := PermitRow(Some(ClaimOperation(e)), None, None, None);
    Apply(e.member, e.installation, map[EntityKey(e) := e.version],
          Changes([], [], [Rows(EffectOperation(e), Some(permit))], [Rows(EffectOperation(e), Some(Row(e, Pending)))]),
          map[])
  }

  function FinishRequest(e: EffectCall, ok: bool): Request {
    var outcome := if ok then Succeeded else Unknown;
    Apply(e.member, e.installation, map[], Changes([], [], [], [Rows(EffectOperation(e), Some(Row(e, outcome)))]),
          map[])
  }

  // ---- clients ------------------------------------------------------------------------------

  /** What the client does once the transaction returned. */
  datatype Continuation = Stop | Admit(call: EffectCall) | Execute(call: EffectCall)

  datatype Job = Job(operation: string, request: Request, next: Continuation)

  function ClaimJob(e: EffectCall): Job { Job(ClaimOperation(e), ClaimRequest(e), Admit(e)) }

  function AdmitJob(e: EffectCall): Job { Job(EffectOperation(e), AdmitRequest(e), Execute(e)) }

  function FinishJob(e: EffectCall, ok: bool): Job { Job(FinishOperation(e, ok), FinishRequest(e, ok), Stop) }

  datatype Client =
    | Reading(job: Job, left: nat)
    | Pushing(job: Job, left: nat, attempt: nat)
    | Resolving(job: Job)
    | Body(call: EffectCall)

  datatype Fate = InFlight | Accepted | Rejected

  datatype Push = Push(commit: Commit, fate: Fate)

  datatype Return = Return(job: Job, result: Result, replayed: bool, attempt: nat)

  /** `pushes` are numbered by attempt.  The last three fields are history: the transactions begun, what
      transactions returned, and the effect operations whose body returned normally. */
  datatype World = World(head: Commit, pushes: seq<Push>, clients: map<nat, Client>, begun: set<Job>,
                         returned: seq<Return>, completed: set<string>)

  const START := World(Root, [], map[], {}, [], {})

  predicate Idle(w: World, i: nat) { i !in w.clients }

  function Becomes(w: World, i: nat, c: Client): World { w.(clients := w.clients[i := c]) }

  function Leaves(w: World, i: nat): World { w.(clients := w.clients - {i}) }

  function Starts(w: World, i: nat, job: Job): World { Becomes(w.(begun := w.begun + {job}), i, Reading(job, RETRIES)) }

  /** The transaction returned: an admitted effect runs its body unless its admission is a replay. */
  function Returns(w: World, i: nat, job: Job, result: Result, replayed: bool, attempt: nat): World {
    var logged := w.(returned := w.returned + [Return(job, result, replayed, attempt)]);
    match job.next
    case Stop => Leaves(logged, i)
    case Admit(call) => Starts(logged, i, AdmitJob(call))
    case Execute(call) => if replayed then Leaves(logged, i) else Becomes(logged, i, Body(call))
  }

  datatype Action =
    | Begin(i: nat, operation: string, request: Request)
    | BeginEffect(i: nat, call: EffectCall)
    | Read(i: nat, index: map<string, string>, stamp: nat)
    | Land(attempt: nat)
    | Refuse(attempt: nat)
    | Hear(i: nat)
    | Lose(i: nat)
    | Resolve(i: nat)
    | EndBody(i: nat, ok: bool)
    | Crash(i: nat)

  /** Looks the operation up in the document read, or else builds a commit on the head and pushes it. */
  function ReadHead(w: World, i: nat, job: Job, left: nat, index: map<string, string>, stamp: nat): World {
    var d := Head(w.head);
    if job.operation == "" || |job.operation| > 200 then Leaves(w, i)
    else if job.operation in d.operations then
      var entry := d.operations[job.operation];
      if entry.fingerprint != Fingerprint(job.request) then Leaves(w, i)
      else Returns(w, i, job, entry.result, true, 0)
    else
      var request := WithIndex(job.request, index);
      var next := Advance(d, job.operation, request);
      if next.None? then Leaves(w, i)
      else
        var commit := Link(w.head, stamp, job.operation, request, next.value);
        Becomes(w.(pushes := w.pushes + [Push(commit, InFlight)]), i, Pushing(job, left, |w.pushes|))
  }

  /** A push that lands is taken if the ref still is the commit's parent.  It is also answered as accepted
      if the ref already is that very commit: there is nothing to update, so no lease is compared. */
  function LandPush(w: World, attempt: nat): World
    requires attempt < |w.pushes|
  {
    var commit := w.pushes[attempt].commit;
    if commit == w.head then w.(pushes := w.pushes[attempt := Push(commit, Accepted)])
    else if commit.Link? && commit.parent == w.head
    then w.(head := commit, pushes := w.pushes[attempt := Push(commit, Accepted)])
    else w.(pushes := w.pushes[attempt := Push(commit, Rejected)])
  }

  /** A rejected push starts over until the retries are used up. */
  function HearVerdict(w: World, i: nat, job: Job, left: nat, attempt: nat): World
    requires attempt < |w.pushes|
  {
    var push := w.pushes[attempt];
    match push.fate
    case InFlight => w
    case Accepted =>
      if push.commit.Link? && job.operation in push.commit.document.operations
      then Returns(w, i, job, push.commit.document.operations[job.operation].result, false, attempt) else w
    case Rejected => if left <= 1 then Leaves(w, i) else Becomes(w, i, Reading(job, left - 1))
  }

  /** After a lost acknowledgement the accepted history decides. */
  function ResolveLost(w: World, i: nat, job: Job): World {
    var d := Head(w.head);
    if job.operation in d.operations && d.operations[job.operation].fingerprint == Fingerprint(job.request)
    then Returns(w, i, job, d.operations[job.operation].result, true, 0) else Leaves(w, i)
  }

  /** Some other part of the program transacts directly: anything but an apply that reports success. */
  predicate Plain(r: Request) {
    r.Apply? ==> forall i :: 0 <= i < |r.changes.effects| && r.changes.effects[i].row.Some? ==>
                   r.changes.effects[i].row.value.outcome != Some(Succeeded)
  }

  /** A step that the world does not allow changes nothing. */
  function Act(w: World, a: Action): World {
    match a
    case Begin(i, operation, request) =>
      if Idle(w, i) && Plain(request) then Starts(w, i, Job(operation, request, Stop)) else w
    case BeginEffect(i, call) =>
      if Idle(w, i) then Starts(w, i, ClaimJob(call)) else w
    case Read(i, index, stamp) =>
      if i in w.clients && w.clients[i].Reading?
      then ReadHead(w, i, w.clients[i].job, w.clients[i].left, index, stamp) else w
    case Land(attempt) => if attempt < |w.pushes| && w.pushes[attempt].fate == InFlight then LandPush(w, attempt) else w
    case Refuse(attempt) =>
      if attempt < |w.pushes| && w.pushes[attempt].fate == InFlight
      then w.(pushes := w.pushes[attempt := w.pushes[attempt].(fate := Rejected)]) else w
    case Hear(i) =>
      if i in w.clients && w.clients[i].Pushing? && w.clients[i].attempt < |w.pushes|
      then HearVerdict(w, i, w.clients[i].job, w.clients[i].left, w.clients[i].attempt) else w
    case Lose(i) => if i in w.clients && w.clients[i].Pushing? then Becomes(w, i, Resolving(w.clients[i].job)) else w
    case Resolve(i) => if i in w.clients && w.clients[i].Resolving? then ResolveLost(w, i, w.clients[i].job) else w
    case EndBody(i, ok) =>
      if i in w.clients && w.clients[i].Body? then
        var call := w.clients[i].call;
        Starts(w.(completed := if ok then w.completed + {EffectOperation(call)} else w.completed), i,
               FinishJob(call, ok))
      else w
    case Crash(i) => Leaves(w, i)
  }

  function Run(actions: seq<Action>): World {
    if actions == [] then START else Act(Run(actions[..|actions|-1]), actions[|actions|-1])
  }
}
