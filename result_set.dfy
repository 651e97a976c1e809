/** The part of a result cursor the statement relies on: it can be closed,
    and it reports whether it is. Rows, metadata and value conversion belong
    to the concrete result set and are not part of this model. */
module ResultSets {

  class ResultSet {
    var closed: bool

    constructor ()
      ensures !closed
    {
      closed := false;
    }

    /** Closing is idempotent: the cursor is closed afterwards either way. */
    method Close()
      modifies this
      ensures closed
    {
      closed := true;
    }

    method IsClosed() returns (r: bool)
      ensures r == closed
    {
      r := closed;
    }
  }
}
