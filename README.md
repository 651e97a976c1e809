# Crate JDBC statement base: lifecycle and capability policy

This project models `CrateStatementBase`, the abstract base of the Crate JDBC
driver's statements. A statement has two fields. `connection` is the owning
connection, and null means the statement is closed. `resultSet` is the current
cursor, or null. Around these two fields the class answers every optional
`java.sql.Statement` capability in one of three ways:

- a silent no-op (`setMaxRows`, `setEscapeProcessing`, `clearWarnings`, `setCursorName`);
- a constant (the getters);
- `SQLFeatureNotSupportedException`, with or without a closed check first.

The model has four modules:

- `Jdbc` (`jdbc.dfy`): the error kinds, the `Result` wrapper every call returns,
  the `java.sql.ResultSet` constants (`TYPE_FORWARD_ONLY` = 1003,
  `CONCUR_READ_ONLY` = 1007, `HOLD_CURSORS_OVER_COMMIT` = 1), and the table of
  refused capabilities: each one's exact message, and whether it runs the
  closed check first.
- `ResultSets` (`result_set.dfy`): the cursor, reduced to its closed flag.
- `StatementMachine` (`machine.dfy`): the statement as a state machine over
  values. `Step` gives the new abstract state and the reply of each call.
  `Run` runs a sequence of calls. The lemmas state what holds of every run.
- `Statements` (`statement.dfy`): the class `CrateStatementBase` with its two
  fields and one method per Java method. Each method states its result
  directly. It also states that the machine's `Step`, applied to the
  statement's abstract state (`View()`), gives the same reply and the same new
  state (`Execute` states the new state only, since its boolean is not
  modelled). Through that link the run lemmas hold of the class. The client
  closing a result set it holds, the machine's `CloseResultSet`, has no such
  link: `ResultSets.ResultSet.Close` only sets the cursor's flag, which `View()`
  reads. Methods without a
  `modifies` clause leave both fields and the current cursor unchanged.

Every Java method is declared `throws SQLException`, so every method returns
`Result<T>`. `Err(StatementClosed)` is the `SQLException` "Statement is
closed". `Err(FeatureNotSupported(m))` is the not-supported exception with its
message `m`.

The abstract `execute(String)` belongs to subclasses, which are not part of
this model. It is a step whose outcome is a parameter: either the result set it
leaves in the field (possibly null), or the error it raises. The model
assumes it never touches `connection`. `executeQuery` is stated against that step.

The code leaves the getters, the no-op setters, the five unchecked setters and
`isClosed` callable on a closed statement. Only the methods that call
`checkClosed` refuse a closed statement. The model follows the code here, not
the `java.sql.Statement` documentation, which says that calling any of its
methods other than `isClosed` and `close` on a closed statement raises
`SQLException`.

## Model

| member | source | states |
|---|---|---|
| `Statements.CrateStatementBase.constructor` | src/main/java/io/crate/client/jdbc/CrateStatementBase.java:30-32 | the statement holds the given connection and no result set; it is open exactly when that connection is non-null |
| `Statements.CrateStatementBase.IsClosed` | src/main/java/io/crate/client/jdbc/CrateStatementBase.java:198-201 | never fails; true exactly when `connection` is null |
| `Statements.CrateStatementBase.CheckClosed` | src/main/java/io/crate/client/jdbc/CrateStatementBase.java:246-250 | succeeds iff the statement is open, else fails with the `StatementClosed` error, whose message is "Statement is closed" |
| `Statements.CrateStatementBase.Close` | src/main/java/io/crate/client/jdbc/CrateStatementBase.java:41-47 | never fails; afterwards both fields are null and the former result set, if any, is closed; after a completed close() (both fields null) a further call leaves the abstract state as it is |
| `Statements.CrateStatementBase.CloseOnCompletion` | src/main/java/io/crate/client/jdbc/CrateStatementBase.java:220-225 | closed statement: fails with "Statement is closed" and changes nothing; open statement: succeeds, and iff the current result set is already closed, drops both fields and leaves that former result set closed; otherwise nothing changes |
| `Statements.CrateStatementBase.Execute` | src/main/java/io/crate/client/jdbc/CrateStatementBase.java:36 | the subclass's step: installs the produced result set, or raises its error and leaves the fields alone; the connection is untouched; its new abstract state is the machine's `ExecuteQuery` step |
| `Statements.CrateStatementBase.ExecuteQuery` | src/main/java/io/crate/client/jdbc/CrateStatementBase.java:35-38 | returns the result set that execute left in the field, or propagates its error with the field unchanged |
| `Statements.CrateStatementBase.GetResultSet` | src/main/java/io/crate/client/jdbc/CrateStatementBase.java:105-108 | closed: "Statement is closed"; open: the stored result set itself |
| `Statements.CrateStatementBase.GetConnection` | src/main/java/io/crate/client/jdbc/CrateStatementBase.java:214-217 | closed: "Statement is closed"; open: the stored connection itself |
| `Statements.CrateStatementBase.GetMaxFieldSize` | src/main/java/io/crate/client/jdbc/CrateStatementBase.java:50-52 | 0 in every state, never fails |
| `Statements.CrateStatementBase.GetMaxRows` | src/main/java/io/crate/client/jdbc/CrateStatementBase.java:60-62 | 0 in every state, never fails |
| `Statements.CrateStatementBase.GetQueryTimeout` | src/main/java/io/crate/client/jdbc/CrateStatementBase.java:75-77 | 0 in every state, never fails |
| `Statements.CrateStatementBase.GetWarnings` | src/main/java/io/crate/client/jdbc/CrateStatementBase.java:91-93 | no warning (null) in every state |
| `Statements.CrateStatementBase.GetMoreResults` | src/main/java/io/crate/client/jdbc/CrateStatementBase.java:111-113 | false in every state |
| `Statements.CrateStatementBase.GetFetchDirection` | src/main/java/io/crate/client/jdbc/CrateStatementBase.java:121-123 | 0 in every state |
| `Statements.CrateStatementBase.GetFetchSize` | src/main/java/io/crate/client/jdbc/CrateStatementBase.java:131-133 | 0 in every state |
| `Statements.CrateStatementBase.GetResultSetConcurrency` | src/main/java/io/crate/client/jdbc/CrateStatementBase.java:136-138 | read-only concurrency (1007) in every state |
| `Statements.CrateStatementBase.GetResultSetType` | src/main/java/io/crate/client/jdbc/CrateStatementBase.java:141-143 | forward-only type (1003) in every state |
| `Statements.CrateStatementBase.GetResultSetHoldability` | src/main/java/io/crate/client/jdbc/CrateStatementBase.java:194-196 | hold-cursors-over-commit (1) in every state |
| `Statements.CrateStatementBase.IsPoolable` | src/main/java/io/crate/client/jdbc/CrateStatementBase.java:209-211 | false in every state |
| `Statements.CrateStatementBase.IsCloseOnCompletion` | src/main/java/io/crate/client/jdbc/CrateStatementBase.java:228-230 | true in every state |
| `Statements.CrateStatementBase.SetMaxRows` | src/main/java/io/crate/client/jdbc/CrateStatementBase.java:65-67 | never fails, open or closed, and changes nothing (the limit is not enforced) |
| `Statements.CrateStatementBase.SetEscapeProcessing` | src/main/java/io/crate/client/jdbc/CrateStatementBase.java:70-72 | never fails and changes nothing |
| `Statements.CrateStatementBase.ClearWarnings` | src/main/java/io/crate/client/jdbc/CrateStatementBase.java:96-97 | never fails and changes nothing |
| `Statements.CrateStatementBase.SetCursorName` | src/main/java/io/crate/client/jdbc/CrateStatementBase.java:100-102 | never fails and changes nothing |
| `Statements.CrateStatementBase.SetMaxFieldSize` | src/main/java/io/crate/client/jdbc/CrateStatementBase.java:55-57 | not supported, open or closed (no closed check) |
| `Statements.CrateStatementBase.SetQueryTimeout` | src/main/java/io/crate/client/jdbc/CrateStatementBase.java:80-82 | not supported, open or closed |
| `Statements.CrateStatementBase.SetFetchDirection` | src/main/java/io/crate/client/jdbc/CrateStatementBase.java:116-118 | not supported, open or closed |
| `Statements.CrateStatementBase.SetFetchSize` | src/main/java/io/crate/client/jdbc/CrateStatementBase.java:126-128 | not supported, open or closed |
| `Statements.CrateStatementBase.SetPoolable` | src/main/java/io/crate/client/jdbc/CrateStatementBase.java:204-206 | not supported, open or closed |
| `Statements.CrateStatementBase.Cancel` | src/main/java/io/crate/client/jdbc/CrateStatementBase.java:85-88 | closed: "Statement is closed"; open: not supported |
| `Statements.CrateStatementBase.GetMoreResultsCurrent` | src/main/java/io/crate/client/jdbc/CrateStatementBase.java:146-149 | closed: "Statement is closed"; open: not supported |
| `Statements.CrateStatementBase.GetGeneratedKeys` | src/main/java/io/crate/client/jdbc/CrateStatementBase.java:152-155 | closed: "Statement is closed"; open: not supported |
| `Statements.CrateStatementBase.ExecuteUpdateAutoGeneratedKeys` | src/main/java/io/crate/client/jdbc/CrateStatementBase.java:158-161 | closed: "Statement is closed"; open: not supported |
| `Statements.CrateStatementBase.ExecuteUpdateColumnIndexes` | src/main/java/io/crate/client/jdbc/CrateStatementBase.java:164-167 | closed: "Statement is closed"; open: not supported |
| `Statements.CrateStatementBase.ExecuteUpdateColumnNames` | src/main/java/io/crate/client/jdbc/CrateStatementBase.java:170-173 | closed: "Statement is closed"; open: not supported |
| `Statements.CrateStatementBase.ExecuteAutoGeneratedKeys` | src/main/java/io/crate/client/jdbc/CrateStatementBase.java:176-179 | closed: "Statement is closed"; open: not supported |
| `Statements.CrateStatementBase.ExecuteColumnIndexes` | src/main/java/io/crate/client/jdbc/CrateStatementBase.java:182-185 | closed: "Statement is closed"; open: not supported |
| `Statements.CrateStatementBase.ExecuteColumnNames` | src/main/java/io/crate/client/jdbc/CrateStatementBase.java:188-191 | closed: "Statement is closed"; open: not supported |
| `ResultSets.ResultSet.Close` | src/main/java/io/crate/client/jdbc/CrateStatementBase.java:44 | the cursor is closed afterwards, whether or not it was before |
| `ResultSets.ResultSet.IsClosed` | src/main/java/io/crate/client/jdbc/CrateStatementBase.java:222 | reports the cursor's closed flag |
| `StatementMachine.ClosedIsPermanent` | src/main/java/io/crate/client/jdbc/CrateStatementBase.java:30-47 | no sequence of calls reopens a closed statement |
| `StatementMachine.GuardedFailAfterClose` | src/main/java/io/crate/client/jdbc/CrateStatementBase.java:246-250 | after a close() anywhere in a run, every later call that runs the closed check fails with "Statement is closed" |
| `StatementMachine.RefusalsAlwaysFail` | src/main/java/io/crate/client/jdbc/CrateStatementBase.java:55-206 | in any run, a refused capability never succeeds: it fails with its own not-supported message, or with "Statement is closed" only if it checks first; the unchecked setters always fail not-supported |
| `StatementMachine.ObserversAreInvisible` | src/main/java/io/crate/client/jdbc/CrateStatementBase.java:49-230 | inserting a no-op, a getter, isClosed, getResultSet, getConnection or a refusal anywhere in a run changes neither any other reply nor the final state |
| `StatementMachine.SecondCloseChangesNothing` | src/main/java/io/crate/client/jdbc/CrateStatementBase.java:41-47 | a second close() right after the first succeeds, and everything after it replies and ends exactly as without it |

## Left out

- `unwrap` and `isWrapperFor` (lines 232-244): they rest on Java reflection and class assignability.
- The body of `execute(String)`, `CrateConnection` and the transport: they are abstract or belong to other classes. `execute` is a step whose outcome is a parameter (the result set it installs, or the error it raises). Whether a subclass closes the previous result set before installing a new one is not modelled. The model also assumes that a subclass's `execute` never writes `connection` (the field is `protected`, so a subclass could); `StatementMachine.ClosedIsPermanent` and `StatementMachine.GuardedFailAfterClose` rely on that assumption for runs that contain `executeQuery`.
- `Statements.CrateStatementBase.Execute`: the boolean that `execute(String)` returns is not modelled. Only its effect on the two fields is, and `executeQuery` discards that boolean anyway.
- `Statements.CrateStatementBase.Close`: the cursor's `close()` (line 44) is modelled as never failing, although `java.sql.ResultSet.close` is declared `throws SQLException`. If it threw, `close()` would pass the error on with `connection` already null and `resultSet` still set, and a second `close()` would call the cursor's `close()` again. The method's `Ok` result and `StatementMachine.SecondCloseChangesNothing` hold only for cursors whose `close()` succeeds. The cursor class is not part of this model.
- `Statements.CrateStatementBase.CloseOnCompletion`: the cursor's `isClosed()` (line 222) and `close()` (through line 223) are modelled as never failing, although both are declared `throws SQLException`. A failure there, and the half-closed state it would leave, is not modelled.
- `Statements.CrateStatementBase.CloseOnCompletion`: an open statement with a null result set is excluded by a precondition. The code dereferences the field without a null check there, which would raise a `NullPointerException`. The machine's `Defined` excludes the same case.
- Arguments that the statement ignores are accepted by the class methods but not recorded in `StatementMachine.Call`. Java's 32-bit `int` width is not modelled because no argument is ever used and every returned number is a small constant.
- Client code closing a result set it obtained is the machine call `CloseResultSet`. On the class side it is `ResultSets.ResultSet.Close`. The class does not observe that call directly, only through the cursor's flag.
- Rows, column metadata and value conversion of result sets belong to the concrete result set class, which is not part of this model.
- Aliasing of one cursor by several statements is not modelled.
- The integration test `src/test/java/io/crate/client/jdbc/integrationtests/CrateNewTableTest.java` needs a live server.
