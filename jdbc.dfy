/** Values shared by the statement model: JDBC's error kinds as the driver
    raises them, the result wrapper every statement call is modelled with, the
    java.sql.ResultSet constants a crate statement reports, and the fixed table
    of optional capabilities it refuses. */
module Jdbc {

  datatype Option<+T> = None | Some(value: T)

  /** The exceptions a statement call raises. */
  datatype SqlError =
    | StatementClosed                       // SQLException raised by checkClosed
    | FeatureNotSupported(message: string)  // SQLFeatureNotSupportedException
    | ExecutionError(message: string)       // whatever the concrete execute(String) raises

  /** The human-readable text each exception carries. */
  function Message(e: SqlError): string
  {
    match e
    case StatementClosed => "Statement is closed"
    case FeatureNotSupported(m) => m
    case ExecutionError(m) => m
  }

  /** A call that either returns a value or raises one of the errors above
      (every method of java.sql.Statement is declared `throws SQLException`). */
  datatype Result<+T> = Ok(value: T) | Err(error: SqlError)

  /** java.sql.SQLWarning, reduced to its message. */
  datatype SqlWarning = SqlWarning(message: string)

  /** The java.sql.ResultSet constants the statement reports. */
  const TypeForwardOnly: int := 1003
  const ConcurReadOnly: int := 1007
  const HoldCursorsOverCommit: int := 1

  /** Every optional capability the statement refuses with
      SQLFeatureNotSupportedException. Overloads of one Java name are told
      apart by their extra parameter. */
  datatype Unsupported =
    | SetMaxFieldSize
    | SetQueryTimeout
    | Cancel
    | SetFetchDirection
    | SetFetchSize
    | GetMoreResultsCurrent
    | GetGeneratedKeys
    | ExecuteUpdateAutoGeneratedKeys
    | ExecuteUpdateColumnIndexes
    | ExecuteUpdateColumnNames
    | ExecuteAutoGeneratedKeys
    | ExecuteColumnIndexes
    | ExecuteColumnNames
    | SetPoolable

  /** The refusals that first run checkClosed, so that a closed statement
      reports "Statement is closed" instead; the five setters do not. */
  predicate ChecksClosedFirst(u: Unsupported)
  {
    !(u.SetMaxFieldSize? || u.SetQueryTimeout? || u.SetFetchDirection? ||
      u.SetFetchSize? || u.SetPoolable?)
  }

  /** The exact message of each refusal (two of them lack the colon). */
  function NotSupportedMessage(u: Unsupported): string
  {
    match u
    case SetMaxFieldSize => "Statement: setMaxFieldSize not supported"
    case SetQueryTimeout => "Statement setQueryTimeout not supported"
    case Cancel => "Statement: cancel not supported"
    case SetFetchDirection => "Statement setFetchDirection not supported"
    case SetFetchSize => "Statement: setFetchSize not supported"
    case GetMoreResultsCurrent => "Statement: getMoreResults not supported"
    case GetGeneratedKeys => "Statement: getGeneratedKeys not supported"
    case ExecuteUpdateAutoGeneratedKeys =>
      "Statement: executeUpdate(String sql, int autoGeneratedKeys) not supported"
    case ExecuteUpdateColumnIndexes =>
      "Statement: executeUpdate(String sql, int[] columnIndexes) not supported"
    case ExecuteUpdateColumnNames =>
      "Statement: executeUpdate(String sql, String[] columnNames) not supported"
    case ExecuteAutoGeneratedKeys =>
      "Statement: execute(String sql, int autoGeneratedKeys) not supported"
    case ExecuteColumnIndexes =>
      "Statement: execute(String sql, int[] columnIndexes) not supported"
    case ExecuteColumnNames =>
      "Statement: execute(String sql, String[] columnNames) not supported"
    case SetPoolable => "Statement: setPoolable not supported"
  }
}
