/** The chain of commits behind the shared ref.

    Every commit holds one document: the sequence number, the ledger of operations and the state.  A
    commit is identified by its content, so a hash is modelled by the commit itself.  `stamp` is the
    rest of that content, its author and its time in whole seconds: two attempts may have the same, and
    then they may build one and the same commit. */
module GitChain {
  import opened Options
  import opened GitState
  import opened GitSafety

  datatype Entry = Entry(fingerprint: Request, result: Result)

  datatype Document = Document(sequence: nat, operations: map<string, Entry>, state: State)

  datatype Commit =
    | Root
    | Link(parent: Commit, stamp: nat, operation: string, request: Request, document: Document)

  const FIRST := Document(0, map[], EMPTY)

  function Head(c: Commit): Document { if c.Root? then FIRST else c.document }

  /** What the inputs of a request identify: not the resolution of claim ids, and for two kinds of
      request whose inputs have the same fields, not which of them it was. */
  function Fingerprint(r: Request): Request {
    match r
    case Apply(actor, installation, expected, changes, _) => Apply(actor, installation, expected, changes, map[])
    case AcknowledgeStop(actor, installation, entity) => CompleteHandoff(actor, installation, entity)
    case _ => r
  }

  /** The document that the transaction writes on top of another; none if it raises. */
  function Advance(d: Document, operation: string, r: Request): Option<Document> {
    var after := Perform(d.sequence, d.state, r);
    if after.None? then None
    else
      var (state, result) := after.value;
      Some(Document(d.sequence + 1, d.operations[operation := Entry(Fingerprint(r), result)], state))
  }

  /** Each link applies one new operation to its parent's document. */
  predicate Valid(c: Commit) {
    c.Link? ==>
      && Valid(c.parent)
      && c.operation !in Head(c.parent).operations
      && Advance(Head(c.parent), c.operation, c.request) == Some(c.document)
  }

  /** The commit is the head or one of its ancestors. */
  predicate Within(c: Commit, head: Commit) {
    c == head || (head.Link? && Within(c, head.parent))
  }

  function Length(c: Commit): nat { if c.Root? then 0 else Length(c.parent) + 1 }

  /** How many links of the chain apply the operation. */
  function Applications(c: Commit, operation: string): nat {
    if c.Root? then 0 else Applications(c.parent, operation) + if c.operation == operation then 1 else 0
  }

  /** On every valid chain each operation id is applied as often as it is recorded: never or once. */
  lemma {:induction false} AppliedAtMostOnce(c: Commit, operation: string)
    requires Valid(c)
    ensures Applications(c, operation) == if operation in Head(c).operations then 1 else 0
  {
    if c.Link? {
      AppliedAtMostOnce(c.parent, operation);
    }
  }

  /** The number of recorded operations is the sequence number, and the length of the chain. */
  lemma {:induction false} OperationsCountSequence(c: Commit)
    requires Valid(c)
    ensures |Head(c).operations| == Head(c).sequence == Length(c)
  {
    if c.Link? {
      OperationsCountSequence(c.parent);
      assert c.document.operations.Keys == Head(c.parent).operations.Keys + {c.operation};
    }
  }

  /** Every accepted state keeps the safety invariant. */
  lemma {:induction false} ChainIsSafe(c: Commit)
    requires Valid(c)
    ensures Inv(Head(c).state)
  {
    hide Inv, Perform;
    if c.Root? {
      RunsKeepInv([]);
    } else {
      ChainIsSafe(c.parent);
      PerformKeeps(Head(c.parent).sequence, Head(c.parent).state, c.request);
    }
  }

  /** The ledger only grows along the chain. */
  lemma {:induction false} LedgerGrows(c: Commit, head: Commit, operation: string)
    requires Within(c, head) && Valid(head) && operation in Head(c).operations
    ensures operation in Head(head).operations && Head(head).operations[operation] == Head(c).operations[operation]
  {
    hide Perform;
    if c != head {
      LedgerGrows(c, head.parent, operation);
    }
  }

  lemma {:induction false} AncestorIsValid(c: Commit, head: Commit)
    requires Within(c, head) && Valid(head)
    ensures Valid(c)
  {
    if c != head {
      AncestorIsValid(c, head.parent);
    }
  }

  /** Two links of one valid chain that apply the same operation are the same link. */
  lemma {:induction false} OneLink(c: Commit, d: Commit, head: Commit)
    requires c.Link? && d.Link? && c.operation == d.operation
    requires Within(c, head) && Within(d, head) && Valid(head)
    ensures c == d
  {
    hide Perform;
    if c != head && d != head {
      OneLink(c, d, head.parent);
    } else if c != d {
      var older := if c == head then d else c;
      assert Within(older, head.parent);
      AncestorIsValid(older, head.parent);
      LedgerGrows(older, head.parent, older.operation);
    }
  }

  lemma {:induction false} WithinTransitive(a: Commit, b: Commit, c: Commit)
    requires Within(a, b) && Within(b, c)
    ensures Within(a, c)
  {
    if b != c {
      WithinTransitive(a, b, c.parent);
    }
  }
}
