/** The statement base class: its two fields, the close cascade, the closed
    check, and the fixed policy that answers every optional JDBC capability
    with a no-op, a constant or a not-supported error. Each method is tied to
    StatementMachine.Step on the statement's abstract state, so the lemmas
    proved about runs of the machine hold of the class. Methods without a
    modifies clause leave both fields, and the current result set, as they
    were. */
module Statements {
  import opened Jdbc
  import opened ResultSets
  import M = StatementMachine

  /** The owning connection; the statement only holds and returns it. */
  class CrateConnection {
  }

  /** The closed flag of a result set, or None for a null one. */
  ghost function CursorView(c: ResultSet?): Option<bool>
    reads c
  {
    if c == null then None else Some(c.closed)
  }

  /** The outcome the concrete execute(String) chose, as the machine sees it. */
  ghost function OutcomeView(outcome: Result<ResultSet?>): Result<Option<bool>>
    reads if outcome.Ok? then outcome.value else null
  {
    match outcome
    case Ok(c) => Ok(CursorView(c))
    case Err(e) => Err(e)
  }

  /** The replies of the class's methods, in the machine's terms. */
  function UnitReply(r: Result<()>): M.Reply
  {
    match r
    case Ok(_) => Ok(M.Done)
    case Err(e) => Err(e)
  }

  function NumberReply(r: Result<int>): M.Reply
  {
    match r
    case Ok(n) => Ok(M.Number(n))
    case Err(e) => Err(e)
  }

  function FlagReply(r: Result<bool>): M.Reply
  {
    match r
    case Ok(b) => Ok(M.Flag(b))
    case Err(e) => Err(e)
  }

  function WarningReply(r: Result<Option<SqlWarning>>): M.Reply
  {
    match r
    case Ok(w) => Ok(M.Warning(w))
    case Err(e) => Err(e)
  }

  function ConnectionReply(r: Result<CrateConnection?>): M.Reply
  {
    match r
    case Ok(_) => Ok(M.Connection)
    case Err(e) => Err(e)
  }

  ghost function CursorReply(r: Result<ResultSet?>): M.Reply
    reads if r.Ok? then r.value else null
  {
    match r
    case Ok(c) => Ok(M.Cursor(CursorView(c)))
    case Err(e) => Err(e)
  }

  class CrateStatementBase {
    /** Null once the statement is closed. */
    var connection: CrateConnection?
    /** The current cursor, or null. */
    var resultSet: ResultSet?

    /** The statement's abstract state. */
    ghost function View(): M.State
      reads this, resultSet
    {
      M.State(connection != null, CursorView(resultSet))
    }

    /** The machine, in the current state, answers call c with the given
        reply and stays in that state. */
    ghost predicate Answers(c: M.Call, reply: M.Reply)
      reads this, resultSet
    {
      M.FixedPoint(View(), c) && M.Step(View(), c).1 == reply
    }

    /** A statement made with a non-null connection starts open and without
        a result set. */
    constructor (connection: CrateConnection?)
      ensures this.connection == connection && resultSet == null
      ensures View() == M.State(connection != null, None)
    {
      this.connection := connection;
      resultSet := null;
    }

    // ----- lifecycle -----

    method IsClosed() returns (r: Result<bool>)
      ensures r == Ok(connection == null)
      ensures Answers(M.IsClosed, FlagReply(r))
    {
      r := Ok(connection == null);
    }

    /** Succeeds exactly when the statement is open. */
    method CheckClosed() returns (r: Result<()>)
      ensures r.Ok? <==> connection != null
      ensures connection == null ==> r == Err(StatementClosed)
      ensures connection != null ==> r == Ok(())
      ensures r.Err? ==> Message(r.error) == "Statement is closed"
    {
      var closed := IsClosed();
      if closed.value {
        return Err(StatementClosed);
      }
      r := Ok(());
    }

    /** Drops the connection, and closes and drops the current result set.
        Calling it again changes nothing and still succeeds. */
    method Close() returns (r: Result<()>)
      modifies this, resultSet
      ensures r == Ok(())
      ensures connection == null && resultSet == null
      ensures old(resultSet) != null ==> old(resultSet).closed
      ensures old(View()) == M.Closed ==> View() == old(View())
      ensures M.Defined(old(View()), M.Close) && M.Step(old(View()), M.Close) == (View(), UnitReply(r))
    {
      connection := null;
      if resultSet != null {
        resultSet.Close();
        resultSet := null;
      }
      r := Ok(());
    }

    /** Closes the statement when its result set is already closed; an open
        result set leaves everything as it is. The result set is read
        without a null check once the statement is known to be open. */
    method CloseOnCompletion() returns (r: Result<()>)
      requires connection != null ==> resultSet != null
      modifies this, resultSet
      ensures old(connection) == null ==>
                r == Err(StatementClosed) && unchanged(this) &&
                (resultSet != null ==> unchanged(resultSet))
      ensures old(connection) != null ==> r == Ok(())
      ensures old(connection) != null && old(resultSet.closed) ==>
                connection == null && resultSet == null && old(resultSet).closed
      ensures old(connection) != null && !old(resultSet.closed) ==>
                unchanged(this) && unchanged(resultSet)
      ensures M.Defined(old(View()), M.CloseOnCompletion) &&
              M.Step(old(View()), M.CloseOnCompletion) == (View(), UnitReply(r))
    {
      r := CheckClosed();
      if r.Err? {
        return;
      }
      var done := resultSet.IsClosed();
      if done {
        r := Close();
      }
    }

    // ----- execution -----

    /** The concrete execute(String) of a subclass, reduced to its effect on
        this class: it either installs the result set it produced (possibly
        null) or raises an error and leaves the fields alone. It never
        touches the connection. */
    method Execute(sql: string, outcome: Result<ResultSet?>) returns (r: Result<()>)
      modifies this
      ensures connection == old(connection)
      ensures outcome.Ok? ==> r == Ok(()) && resultSet == outcome.value
      ensures outcome.Err? ==> r == Err(outcome.error) && resultSet == old(resultSet)
      ensures M.Defined(old(View()), M.ExecuteQuery(old(OutcomeView(outcome)))) &&
              M.Step(old(View()), M.ExecuteQuery(old(OutcomeView(outcome)))).0 == View()
    {
      match outcome
      case Ok(c) =>
        resultSet := c;
        r := Ok(());
      case Err(e) =>
        r := Err(e);
    }

    /** Runs execute(sql) and returns whatever result set it left behind,
        or the error it raised. */
    method ExecuteQuery(sql: string, outcome: Result<ResultSet?>) returns (r: Result<ResultSet?>)
      modifies this
      ensures connection == old(connection)
      ensures outcome.Err? ==> r == Err(outcome.error) && resultSet == old(resultSet)
      ensures outcome.Ok? ==> r == Ok(resultSet) && resultSet == outcome.value
      ensures M.Defined(old(View()), M.ExecuteQuery(old(OutcomeView(outcome)))) &&
              M.Step(old(View()), M.ExecuteQuery(old(OutcomeView(outcome)))) == (View(), CursorReply(r))
    {
      var e := Execute(sql, outcome);
      if e.Err? {
        return Err(e.error);
      }
      r := Ok(resultSet);
    }

    // ----- guarded accessors -----

    /** The stored result set, unchanged, on an open statement. */
    method GetResultSet() returns (r: Result<ResultSet?>)
      ensures connection == null ==> r == Err(StatementClosed)
      ensures connection != null ==> r == Ok(resultSet)
      ensures Answers(M.GetResultSet, CursorReply(r))
    {
      var check := CheckClosed();
      if check.Err? {
        return Err(check.error);
      }
      r := Ok(resultSet);
    }

    /** The owning connection on an open statement. */
    method GetConnection() returns (r: Result<CrateConnection?>)
      ensures connection == null ==> r == Err(StatementClosed)
      ensures connection != null ==> r == Ok(connection)
      ensures Answers(M.GetConnection, ConnectionReply(r))
    {
      var check := CheckClosed();
      if check.Err? {
        return Err(check.error);
      }
      r := Ok(connection);
    }

    // ----- constant getters -----

    method GetMaxFieldSize() returns (r: Result<int>)
      ensures r == Ok(0)
      ensures Answers(M.Get(M.MaxFieldSize), NumberReply(r))
    {
      r := Ok(0);
    }

    method GetMaxRows() returns (r: Result<int>)
      ensures r == Ok(0)
      ensures Answers(M.Get(M.MaxRows), NumberReply(r))
    {
      r := Ok(0);
    }

    method GetQueryTimeout() returns (r: Result<int>)
      ensures r == Ok(0)
      ensures Answers(M.Get(M.QueryTimeout), NumberReply(r))
    {
      r := Ok(0);
    }

    method GetWarnings() returns (r: Result<Option<SqlWarning>>)
      ensures r == Ok(None)
      ensures Answers(M.Get(M.Warnings), WarningReply(r))
    {
      r := Ok(None);
    }

    /** There is never a second result. */
    method GetMoreResults() returns (r: Result<bool>)
      ensures r == Ok(false)
      ensures Answers(M.Get(M.MoreResults), FlagReply(r))
    {
      r := Ok(false);
    }

    /** 0, which is none of the FETCH_ constants of java.sql.ResultSet. */
    method GetFetchDirection() returns (r: Result<int>)
      ensures r == Ok(0)
      ensures Answers(M.Get(M.FetchDirection), NumberReply(r))
    {
      r := Ok(0);
    }

    method GetFetchSize() returns (r: Result<int>)
      ensures r == Ok(0)
      ensures Answers(M.Get(M.FetchSize), NumberReply(r))
    {
      r := Ok(0);
    }

    method GetResultSetConcurrency() returns (r: Result<int>)
      ensures r == Ok(ConcurReadOnly)
      ensures Answers(M.Get(M.ResultSetConcurrency), NumberReply(r))
    {
      r := Ok(ConcurReadOnly);
    }

    method GetResultSetType() returns (r: Result<int>)
      ensures r == Ok(TypeForwardOnly)
      ensures Answers(M.Get(M.ResultSetType), NumberReply(r))
    {
      r := Ok(TypeForwardOnly);
    }

    method GetResultSetHoldability() returns (r: Result<int>)
      ensures r == Ok(HoldCursorsOverCommit)
      ensures Answers(M.Get(M.ResultSetHoldability), NumberReply(r))
    {
      r := Ok(HoldCursorsOverCommit);
    }

    method IsPoolable() returns (r: Result<bool>)
      ensures r == Ok(false)
      ensures Answers(M.Get(M.Poolable), FlagReply(r))
    {
      r := Ok(false);
    }

    method IsCloseOnCompletion() returns (r: Result<bool>)
      ensures r == Ok(true)
      ensures Answers(M.Get(M.CloseOnCompletionFlag), FlagReply(r))
    {
      r := Ok(true);
    }

    // ----- no-op setters -----

    /** Accepted without enforcing any limit. */
    method SetMaxRows(max: int) returns (r: Result<()>)
      ensures r == Ok(())
      ensures Answers(M.Ignore(M.SetMaxRows), UnitReply(r))
    {
      r := Ok(());
    }

    method SetEscapeProcessing(enable: bool) returns (r: Result<()>)
      ensures r == Ok(())
      ensures Answers(M.Ignore(M.SetEscapeProcessing), UnitReply(r))
    {
      r := Ok(());
    }

    method ClearWarnings() returns (r: Result<()>)
      ensures r == Ok(())
      ensures Answers(M.Ignore(M.ClearWarnings), UnitReply(r))
    {
      r := Ok(());
    }

    method SetCursorName(name: string) returns (r: Result<()>)
      ensures r == Ok(())
      ensures Answers(M.Ignore(M.SetCursorName), UnitReply(r))
    {
      r := Ok(());
    }

    // ----- refused without a closed check -----

    method SetMaxFieldSize(max: int) returns (r: Result<()>)
      ensures r == Err(FeatureNotSupported(NotSupportedMessage(Unsupported.SetMaxFieldSize)))
      ensures Answers(M.Refuse(Unsupported.SetMaxFieldSize), UnitReply(r))
    {
      r := Err(FeatureNotSupported(NotSupportedMessage(Unsupported.SetMaxFieldSize)));
    }

    method SetQueryTimeout(seconds: int) returns (r: Result<()>)
      ensures r == Err(FeatureNotSupported(NotSupportedMessage(Unsupported.SetQueryTimeout)))
      ensures Answers(M.Refuse(Unsupported.SetQueryTimeout), UnitReply(r))
    {
      r := Err(FeatureNotSupported(NotSupportedMessage(Unsupported.SetQueryTimeout)));
    }

    method SetFetchDirection(direction: int) returns (r: Result<()>)
      ensures r == Err(FeatureNotSupported(NotSupportedMessage(Unsupported.SetFetchDirection)))
      ensures Answers(M.Refuse(Unsupported.SetFetchDirection), UnitReply(r))
    {
      r := Err(FeatureNotSupported(NotSupportedMessage(Unsupported.SetFetchDirection)));
    }

    method SetFetchSize(rows: int) returns (r: Result<()>)
      ensures r == Err(FeatureNotSupported(NotSupportedMessage(Unsupported.SetFetchSize)))
      ensures Answers(M.Refuse(Unsupported.SetFetchSize), UnitReply(r))
    {
      r := Err(FeatureNotSupported(NotSupportedMessage(Unsupported.SetFetchSize)));
    }

    method SetPoolable(poolable: bool) returns (r: Result<()>)
      ensures r == Err(FeatureNotSupported(NotSupportedMessage(Unsupported.SetPoolable)))
      ensures Answers(M.Refuse(Unsupported.SetPoolable), UnitReply(r))
    {
      r := Err(FeatureNotSupported(NotSupportedMessage(Unsupported.SetPoolable)));
    }

    // ----- refused after the closed check -----

    method Cancel() returns (r: Result<()>)
      ensures connection == null ==> r == Err(StatementClosed)
      ensures connection != null ==>
                r == Err(FeatureNotSupported(NotSupportedMessage(Unsupported.Cancel)))
      ensures Answers(M.Refuse(Unsupported.Cancel), UnitReply(r))
    {
      r := CheckClosed();
      if r.Ok? {
        r := Err(FeatureNotSupported(NotSupportedMessage(Unsupported.Cancel)));
      }
    }

    method GetMoreResultsCurrent(current: int) returns (r: Result<bool>)
      ensures connection == null ==> r == Err(StatementClosed)
      ensures connection != null ==>
                r == Err(FeatureNotSupported(NotSupportedMessage(Unsupported.GetMoreResultsCurrent)))
      ensures Answers(M.Refuse(Unsupported.GetMoreResultsCurrent), FlagReply(r))
    {
      var check := CheckClosed();
      if check.Err? {
        return Err(check.error);
      }
      r := Err(FeatureNotSupported(NotSupportedMessage(Unsupported.GetMoreResultsCurrent)));
    }

    method GetGeneratedKeys() returns (r: Result<ResultSet?>)
      ensures connection == null ==> r == Err(StatementClosed)
      ensures connection != null ==>
                r == Err(FeatureNotSupported(NotSupportedMessage(Unsupported.GetGeneratedKeys)))
      ensures Answers(M.Refuse(Unsupported.GetGeneratedKeys), CursorReply(r))
    {
      var check := CheckClosed();
      if check.Err? {
        return Err(check.error);
      }
      r := Err(FeatureNotSupported(NotSupportedMessage(Unsupported.GetGeneratedKeys)));
    }

    method ExecuteUpdateAutoGeneratedKeys(sql: string, autoGeneratedKeys: int) returns (r: Result<int>)
      ensures connection == null ==> r == Err(StatementClosed)
      ensures connection != null ==>
                r == Err(FeatureNotSupported(NotSupportedMessage(Unsupported.ExecuteUpdateAutoGeneratedKeys)))
      ensures Answers(M.Refuse(Unsupported.ExecuteUpdateAutoGeneratedKeys), NumberReply(r))
    {
      var check := CheckClosed();
      if check.Err? {
        return Err(check.error);
      }
      r := Err(FeatureNotSupported(NotSupportedMessage(Unsupported.ExecuteUpdateAutoGeneratedKeys)));
    }

    method ExecuteUpdateColumnIndexes(sql: string, columnIndexes: seq<int>) returns (r: Result<int>)
      ensures connection == null ==> r == Err(StatementClosed)
      ensures connection != null ==>
                r == Err(FeatureNotSupported(NotSupportedMessage(Unsupported.ExecuteUpdateColumnIndexes)))
      ensures Answers(M.Refuse(Unsupported.ExecuteUpdateColumnIndexes), NumberReply(r))
    {
      var check := CheckClosed();
      if check.Err? {
        return Err(check.error);
      }
      r := Err(FeatureNotSupported(NotSupportedMessage(Unsupported.ExecuteUpdateColumnIndexes)));
    }

    method ExecuteUpdateColumnNames(sql: string, columnNames: seq<string>) returns (r: Result<int>)
      ensures connection == null ==> r == Err(StatementClosed)
      ensures connection != null ==>
                r == Err(FeatureNotSupported(NotSupportedMessage(Unsupported.ExecuteUpdateColumnNames)))
      ensures Answers(M.Refuse(Unsupported.ExecuteUpdateColumnNames), NumberReply(r))
    {
      var check := CheckClosed();
      if check.Err? {
        return Err(check.error);
      }
      r := Err(FeatureNotSupported(NotSupportedMessage(Unsupported.ExecuteUpdateColumnNames)));
    }

    method ExecuteAutoGeneratedKeys(sql: string, autoGeneratedKeys: int) returns (r: Result<bool>)
      ensures connection == null ==> r == Err(StatementClosed)
      ensures connection != null ==>
                r == Err(FeatureNotSupported(NotSupportedMessage(Unsupported.ExecuteAutoGeneratedKeys)))
      ensures Answers(M.Refuse(Unsupported.ExecuteAutoGeneratedKeys), FlagReply(r))
    {
      var check := CheckClosed();
      if check.Err? {
        return Err(check.error);
      }
      r := Err(FeatureNotSupported(NotSupportedMessage(Unsupported.ExecuteAutoGeneratedKeys)));
    }

    method ExecuteColumnIndexes(sql: string, columnIndexes: seq<int>) returns (r: Result<bool>)
      ensures connection == null ==> r == Err(StatementClosed)
      ensures connection != null ==>
                r == Err(FeatureNotSupported(NotSupportedMessage(Unsupported.ExecuteColumnIndexes)))
      ensures Answers(M.Refuse(Unsupported.ExecuteColumnIndexes), FlagReply(r))
    {
      var check := CheckClosed();
      if check.Err? {
        return Err(check.error);
      }
      r := Err(FeatureNotSupported(NotSupportedMessage(Unsupported.ExecuteColumnIndexes)));
    }

    method ExecuteColumnNames(sql: string, columnNames: seq<string>) returns (r: Result<bool>)
      ensures connection == null ==> r == Err(StatementClosed)
      ensures connection != null ==>
                r == Err(FeatureNotSupported(NotSupportedMessage(Unsupported.ExecuteColumnNames)))
      ensures Answers(M.Refuse(Unsupported.ExecuteColumnNames), FlagReply(r))
    {
      var check := CheckClosed();
      if check.Err? {
        return Err(check.error);
      }
      r := Err(FeatureNotSupported(NotSupportedMessage(Unsupported.ExecuteColumnNames)));
    }
  }
}
