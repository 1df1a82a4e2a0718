/** The `/counter` routes of the back end: one integer per user in the `counter` table,
    created at 0 on first read and replaced by an upsert. The table is a map from user id to
    value; the routes reach it through the pool, and any failure on the way (no pool, a query
    that throws) becomes a 500 reply. */
module CounterApi {
  import opened Results

  const GetFailed: string := "Failed to get counter value"
  const UpdateFailed: string := "Failed to update counter value"
  const NotANumber: string := "Value must be a number"

  /** A JSON reply: a status and either `{ value }` or `{ error }`. */
  datatype Body = ValueBody(value: int) | ErrorBody(error: string)
  datatype Response = Response(status: int, body: Body)

  /** The `value` field of a PUT body: a number, or anything else (missing, a string, ...). */
  datatype BodyValue = Number(n: int) | NotNumber

  /** Where a request's trip to the database breaks down, counting `getPool()` as step 0 and
      the handler's queries, in order, from step 1; `None` when nothing fails. */
  type Fault = Option<nat>

  predicate FailsAt(fault: Fault, step: nat) {
    fault == Some(step)
  }

  /** GET `/counter`: the stored value, or 0 after inserting a row for a user without one. */
  function Get(rows: map<int, int>, userId: int, fault: Fault): (r: (Response, map<int, int>))
    ensures r.0.status == 200 ==> userId in r.1 && r.0.body == ValueBody(r.1[userId])
    ensures r.0.status == 200 && userId in rows ==> r.0.body == ValueBody(rows[userId]) && r.1 == rows
    ensures r.0.status == 200 && userId !in rows ==> r.0.body == ValueBody(0) && r.1 == rows[userId := 0]
    ensures r.0.status != 200 ==> r.0 == Response(500, ErrorBody(GetFailed)) && r.1 == rows
    ensures r.0.status == 200 <==>
      !FailsAt(fault, 0) && !FailsAt(fault, 1) && (userId in rows || !FailsAt(fault, 2))
  {
    if FailsAt(fault, 0) || FailsAt(fault, 1) then (Response(500, ErrorBody(GetFailed)), rows)
    else if userId !in rows then
      if FailsAt(fault, 2) then (Response(500, ErrorBody(GetFailed)), rows)
      else (Response(200, ValueBody(0)), rows[userId := 0])
    else (Response(200, ValueBody(rows[userId])), rows)
  }

  /** PUT `/counter`: a number is stored for the user, with or without an existing row, and
      echoed back; anything else is refused before the database is touched. */
  function Put(rows: map<int, int>, userId: int, value: BodyValue, fault: Fault): (r: (Response, map<int, int>))
    ensures value.NotNumber? ==> r == (Response(400, ErrorBody(NotANumber)), rows)
    ensures value.Number? && !FailsAt(fault, 0) && !FailsAt(fault, 1) ==>
      r.0 == Response(200, ValueBody(value.n)) && r.1 == rows[userId := value.n]
    ensures value.Number? && (FailsAt(fault, 0) || FailsAt(fault, 1)) ==>
      r == (Response(500, ErrorBody(UpdateFailed)), rows)
    ensures forall u :: u != userId ==> (u in r.1 <==> u in rows) && (u in rows ==> r.1[u] == rows[u])
  {
    match value
    case NotNumber => (Response(400, ErrorBody(NotANumber)), rows)
    case Number(n) =>
      if FailsAt(fault, 0) || FailsAt(fault, 1) then (Response(500, ErrorBody(UpdateFailed)), rows)
      else (Response(200, ValueBody(n)), rows[userId := n])
  }

  /** Reading twice gives the same value, and the second read changes nothing. */
  lemma GetIdempotent(rows: map<int, int>, userId: int)
    ensures var (first, after) := Get(rows, userId, None);
      Get(after, userId, None) == (first, after)
  {
  }

  /** What a successful PUT stored is what the next GET returns. */
  lemma PutThenGet(rows: map<int, int>, userId: int, n: int)
    ensures var (put, after) := Put(rows, userId, Number(n), None);
      put.body == ValueBody(n) && Get(after, userId, None) == (Response(200, ValueBody(n)), after)
  {
  }

  /** A user's reads and writes never touch another user's row. */
  lemma {:induction false} UsersIsolated(rows: map<int, int>, userId: int, other: int, value: BodyValue, fault: Fault)
    requires other != userId
    ensures other in Get(rows, userId, fault).1 <==> other in rows
    ensures other in rows ==> Get(rows, userId, fault).1[other] == rows[other] && Put(rows, userId, value, fault).1[other] == rows[other]
  {
    var (_, afterGet) := Get(rows, userId, fault);
    assert afterGet == rows || afterGet == rows[userId := 0];
  }

  /** The `counter` table as the routes see it. */
  class CounterStore {
    var rows: map<int, int>

    constructor (rows: map<int, int>)
      ensures this.rows == rows
    {
      this.rows := rows;
    }

    /** GET `/counter` for the authenticated `userId`. */
    method GetCounter(userId: int, fault: Fault) returns (response: Response)
      modifies this
      ensures (response, rows) == Get(old(rows), userId, fault)
    {
      // getPool()
      if FailsAt(fault, 0) {
        return Response(500, ErrorBody(GetFailed));
      }
      // SELECT value FROM counter WHERE user_id = $1
      if FailsAt(fault, 1) {
        return Response(500, ErrorBody(GetFailed));
      }
      if userId !in rows {
        // INSERT INTO counter (user_id, value, updated_at) VALUES ($1, 0, NOW())
        if FailsAt(fault, 2) {
          return Response(500, ErrorBody(GetFailed));
        }
        rows := rows[userId := 0];
        return Response(200, ValueBody(0));
      }
      response := Response(200, ValueBody(rows[userId]));
    }

    /** PUT `/counter` for the authenticated `userId`. */
    method PutCounter(userId: int, value: BodyValue, fault: Fault) returns (response: Response)
      modifies this
      ensures (response, rows) == Put(old(rows), userId, value, fault)
    {
      if value.NotNumber? {
        return Response(400, ErrorBody(NotANumber));
      }
      // getPool()
      if FailsAt(fault, 0) {
        return Response(500, ErrorBody(UpdateFailed));
      }
      // INSERT ... ON CONFLICT (user_id) DO UPDATE SET value = $2
      if FailsAt(fault, 1) {
        return Response(500, ErrorBody(UpdateFailed));
      }
      rows := rows[userId := value.n];
      response := Response(200, ValueBody(value.n));
    }
  }
}
