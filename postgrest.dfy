/** The query-result conventions of the database client. */
module Postgrest {
  import opened Wrappers

  /** A database error as the client reports it. */
  datatype DbError = DbError(code: string, message: string)

  /** The error a singular-row request reports when it matches several rows
      (or, for `.single()`, none). */
  const NotSingular := DbError("PGRST116", "JSON object requested, multiple (or no) rows returned")

  /** `.maybeSingle()`: no row is `null`, one row is that row, several rows is
      an error. */
  function MaybeSingle<T>(rows: seq<T>): (r: Result<Option<T>, DbError>)
    ensures r.Success? <==> |rows| <= 1
    ensures r == Success(None) <==> rows == []
    ensures |rows| == 1 ==> r == Success(Some(rows[0]))
  {
    if |rows| == 0 then Success(None)
    else if |rows| == 1 then Success(Some(rows[0]))
    else Failure(NotSingular)
  }
}
