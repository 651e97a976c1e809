/** The statement's behaviour as a state machine over values: the abstract
    state of a CrateStatementBase, one constructor of Call per operation it
    offers, the reply each call produces, and runs of calls. Every method of
    the class in module Statements is tied to Step; the lemmas here state what
    holds of every sequence of calls. */
module StatementMachine {
  import opened Jdbc

  /** `open` holds while the connection field is non-null; `cursor` is the
      current result set, given by its closed flag, or None when the field is
      null. */
  datatype State = State(open: bool, cursor: Option<bool>)

  /** The state close() leaves behind. */
  const Closed := State(false, None)

  /** Getters that return a constant. */
  datatype Query =
    | MaxFieldSize | MaxRows | QueryTimeout | MoreResults | FetchDirection
    | FetchSize | ResultSetConcurrency | ResultSetType | ResultSetHoldability
    | Poolable | CloseOnCompletionFlag | Warnings

  /** Setters that silently do nothing. */
  datatype NoOp = SetMaxRows | SetEscapeProcessing | ClearWarnings | SetCursorName

  /** One call on the statement. Arguments the statement ignores are not
      recorded. ExecuteQuery carries what the concrete execute(String) chose:
      the new result set (by its closed flag) or the error it raised.
      CloseResultSet is the client closing the result set it obtained. */
  datatype Call =
    | Get(q: Query)
    | Ignore(n: NoOp)
    | Refuse(u: Unsupported)
    | IsClosed
    | GetResultSet
    | GetConnection
    | Close
    | CloseOnCompletion
    | ExecuteQuery(outcome: Result<Option<bool>>)
    | CloseResultSet

  /** What a successful call returns. */
  datatype Value =
    | Done
    | Number(n: int)
    | Flag(b: bool)
    | Warning(w: Option<SqlWarning>)
    | Cursor(c: Option<bool>)
    | Connection

  type Reply = Result<Value>

  /** The fixed answer of each constant getter. */
  function Constant(q: Query): Value
  {
    match q
    case MaxFieldSize => Number(0)
    case MaxRows => Number(0)
    case QueryTimeout => Number(0)
    case MoreResults => Flag(false)
    case FetchDirection => Number(0)
    case FetchSize => Number(0)
    case ResultSetConcurrency => Number(ConcurReadOnly)
    case ResultSetType => Number(TypeForwardOnly)
    case ResultSetHoldability => Number(HoldCursorsOverCommit)
    case Poolable => Flag(false)
    case CloseOnCompletionFlag => Flag(true)
    case Warnings => Warning(None)
  }

  /** closeOnCompletion dereferences the result set unconditionally once the
      closed check has passed; every other call is defined everywhere. */
  predicate Defined(s: State, c: Call)
  {
    !(c.CloseOnCompletion? && s.open && s.cursor.None?)
  }

  /** The calls that run checkClosed before anything else. */
  predicate Guarded(c: Call)
  {
    c.GetResultSet? || c.GetConnection? || c.CloseOnCompletion? ||
    (c.Refuse? && ChecksClosedFirst(c.u))
  }

  /** Calls that never change the state. */
  predicate Observer(c: Call)
  {
    c.Get? || c.Ignore? || c.Refuse? || c.IsClosed? || c.GetResultSet? || c.GetConnection?
  }

  /** One call: the state after it and its reply. */
  function Step(s: State, c: Call): (State, Reply)
    requires Defined(s, c)
  {
    match c
    case Get(q) => (s, Ok(Constant(q)))
    case Ignore(_) => (s, Ok(Done))
    case Refuse(u) =>
      if !s.open && ChecksClosedFirst(u) then (s, Err(StatementClosed))
      else (s, Err(FeatureNotSupported(NotSupportedMessage(u))))
    case IsClosed => (s, Ok(Flag(!s.open)))
    case GetResultSet =>
      if s.open then (s, Ok(Cursor(s.cursor))) else (s, Err(StatementClosed))
    case GetConnection =>
      if s.open then (s, Ok(Connection)) else (s, Err(StatementClosed))
    case Close => (Closed, Ok(Done))
    case CloseOnCompletion =>
      if !s.open then (s, Err(StatementClosed))
      else if s.cursor.value then (Closed, Ok(Done))
      else (s, Ok(Done))
    case ExecuteQuery(outcome) =>
      (match outcome
       case Err(e) => (s, Err(e))
       case Ok(cur) => (s.(cursor := cur), Ok(Cursor(cur))))
    case CloseResultSet =>
      (s.(cursor := if s.cursor.Some? then Some(true) else None), Ok(Done))
  }

  /** A call that leaves the given state as it is. */
  predicate FixedPoint(s: State, c: Call)
  {
    Defined(s, c) && Step(s, c).0 == s
  }

  /** Every call of the sequence is defined in the state it is made in. */
  predicate Feasible(s: State, calls: seq<Call>)
    decreases |calls|
  {
    calls == [] || (Defined(s, calls[0]) && Feasible(Step(s, calls[0]).0, calls[1..]))
  }

  datatype Trace = Trace(final: State, replies: seq<Reply>)

  /** Runs the calls one after another from state s. */
  function Run(s: State, calls: seq<Call>): (t: Trace)
    requires Feasible(s, calls)
    ensures |t.replies| == |calls|
    ensures calls != [] ==> t.replies[0] == Step(s, calls[0]).1
    decreases |calls|
  {
    if calls == [] then Trace(s, [])
    else
      var next := Step(s, calls[0]);
      var rest := Run(next.0, calls[1..]);
      Trace(rest.final, [next.1] + rest.replies)
  }

  /** Running a + b is running a, then b from where a stopped. */
  lemma {:induction false} RunAppend(s: State, a: seq<Call>, b: seq<Call>)
    requires Feasible(s, a) && Feasible(Run(s, a).final, b)
    ensures Feasible(s, a + b)
    ensures Run(s, a + b) ==
            Trace(Run(Run(s, a).final, b).final, Run(s, a).replies + Run(Run(s, a).final, b).replies)
    decreases |a|
  {
    if a != [] {
      var next := Step(s, a[0]).0;
      assert (a + b)[0] == a[0];
      assert (a + b)[1..] == a[1..] + b;
      RunAppend(next, a[1..], b);
    } else {
      assert a + b == b;
    }
  }

  /** A feasible run is feasible in each of its parts. */
  lemma {:induction false} FeasibleSplit(s: State, a: seq<Call>, b: seq<Call>)
    requires Feasible(s, a + b)
    ensures Feasible(s, a) && Feasible(Run(s, a).final, b)
    decreases |a|
  {
    if a != [] {
      assert (a + b)[0] == a[0];
      assert (a + b)[1..] == a[1..] + b;
      FeasibleSplit(Step(s, a[0]).0, a[1..], b);
    } else {
      assert a + b == b;
    }
  }

  /** The i-th reply of a run is the reply of its i-th call in the state
      that the calls before it reached. */
  lemma ReplyAt(s: State, calls: seq<Call>, i: nat)
    requires Feasible(s, calls) && i < |calls|
    ensures Feasible(s, calls[..i]) && Defined(Run(s, calls[..i]).final, calls[i])
    ensures Run(s, calls).replies[i] == Step(Run(s, calls[..i]).final, calls[i]).1
  {
    assert calls == calls[..i] + calls[i..];
    FeasibleSplit(s, calls[..i], calls[i..]);
    RunAppend(s, calls[..i], calls[i..]);
  }

  /** No call reopens a closed statement: the only write to the connection
      field outside the constructor is close() setting it to null. */
  lemma {:induction false} ClosedIsPermanent(s: State, calls: seq<Call>)
    requires Feasible(s, calls) && !s.open
    ensures !Run(s, calls).final.open
    decreases |calls|
  {
    if calls != [] {
      ClosedIsPermanent(Step(s, calls[0]).0, calls[1..]);
    }
  }

  /** Once close() has been called, every call that runs the closed check
      fails with "Statement is closed", whatever came in between. */
  lemma GuardedFailAfterClose(s: State, calls: seq<Call>, j: nat, i: nat)
    requires Feasible(s, calls) && j < i < |calls|
    requires calls[j] == Close && Guarded(calls[i])
    ensures Run(s, calls).replies[i] == Err(StatementClosed)
  {
    ReplyAt(s, calls, i);
    var pre := calls[..i];
    assert pre == pre[..j + 1] + pre[j + 1..];
    FeasibleSplit(s, pre[..j + 1], pre[j + 1..]);
    RunAppend(s, pre[..j + 1], pre[j + 1..]);
    var upToClose := pre[..j + 1];
    assert upToClose == upToClose[..j] + [Close];
    FeasibleSplit(s, upToClose[..j], [Close]);
    RunAppend(s, upToClose[..j], [Close]);
    assert Run(s, upToClose).final == Closed;
    ClosedIsPermanent(Closed, pre[j + 1..]);
  }

  /** No refused capability ever succeeds anywhere in a run: it fails with
      its not-supported message, or with "Statement is closed" only when it
      runs the closed check first. */
  lemma RefusalsAlwaysFail(s: State, calls: seq<Call>, i: nat)
    requires Feasible(s, calls) && i < |calls| && calls[i].Refuse?
    ensures var r := Run(s, calls).replies[i];
            r == Err(FeatureNotSupported(NotSupportedMessage(calls[i].u))) ||
            (ChecksClosedFirst(calls[i].u) && r == Err(StatementClosed))
    ensures !ChecksClosedFirst(calls[i].u) ==>
            Run(s, calls).replies[i] == Err(FeatureNotSupported(NotSupportedMessage(calls[i].u)))
  {
    ReplyAt(s, calls, i);
  }

  /** Inserting a call that leaves the reached state as it is changes
      neither the replies of the calls around it nor the final state. */
  lemma InsertFixedPoint(s: State, pre: seq<Call>, c: Call, post: seq<Call>)
    requires Feasible(s, pre) && FixedPoint(Run(s, pre).final, c)
    requires Feasible(Run(s, pre).final, post)
    ensures Feasible(s, pre + post) && Feasible(s, pre + [c] + post)
    ensures Run(s, pre + [c] + post).final == Run(s, pre + post).final
    ensures Run(s, pre + post).replies ==
            Run(s, pre).replies + Run(Run(s, pre).final, post).replies
    ensures Run(s, pre + [c] + post).replies ==
            Run(s, pre).replies + [Step(Run(s, pre).final, c).1] +
            Run(Run(s, pre).final, post).replies
  {
    var mid := Run(s, pre).final;
    var tail := [c] + post;
    assert pre + [c] + post == pre + tail;
    RunAppend(s, pre, post);
    RunCons(mid, c, post);
    RunAppend(s, pre, tail);
  }

  /** Running c, then post, from a state that c leaves as it is. */
  lemma RunCons(s: State, c: Call, post: seq<Call>)
    requires FixedPoint(s, c) && Feasible(s, post)
    ensures Feasible(s, [c] + post)
    ensures Run(s, [c] + post) == Trace(Run(s, post).final, [Step(s, c).1] + Run(s, post).replies)
  {
  }

  /** The no-ops, the constant getters, isClosed, getResultSet,
      getConnection and the refusals can be inserted anywhere in a run:
      every later reply and the final state stay as they were. */
  lemma ObserversAreInvisible(s: State, pre: seq<Call>, c: Call, post: seq<Call>)
    requires Observer(c) && Feasible(s, pre + post)
    ensures Feasible(s, pre) && Feasible(s, pre + [c] + post)
    ensures Run(s, pre + [c] + post).final == Run(s, pre + post).final
    ensures Run(s, pre + [c] + post).replies ==
            Run(s, pre + post).replies[..|pre|] + [Step(Run(s, pre).final, c).1] +
            Run(s, pre + post).replies[|pre|..]
  {
    FeasibleSplit(s, pre, post);
    InsertFixedPoint(s, pre, c, post);
  }

  /** A second close() right after the first replies normally and changes
      nothing that the rest of the run can observe. */
  lemma SecondCloseChangesNothing(s: State, pre: seq<Call>, post: seq<Call>)
    requires Feasible(s, pre + [Close] + post)
    ensures Feasible(s, pre + [Close, Close] + post)
    ensures Run(s, pre + [Close, Close] + post).final == Run(s, pre + [Close] + post).final
    ensures Run(s, pre + [Close, Close] + post).replies ==
            Run(s, pre + [Close] + post).replies[..|pre| + 1] + [Ok(Done)] +
            Run(s, pre + [Close] + post).replies[|pre| + 1..]
  {
    var first := pre + [Close];
    FeasibleSplit(s, first, post);
    FeasibleSplit(s, pre, [Close]);
    RunAppend(s, pre, [Close]);
    assert Run(s, first).final == Closed;
    InsertFixedPoint(s, first, Close, post);
    assert first + [Close] + post == pre + [Close, Close] + post;
  }
}
