/** The part of a Gin request context the handlers use: the request's
    Authorization header and query string, the per-request key store, the
    abort flag, and the responses written so far. */
module Gin {
  import opened Wrappers
  import opened Models

  const StatusOK: int := 200
  const StatusBadRequest: int := 400
  const StatusUnauthorized: int := 401
  const StatusNotFound: int := 404
  const StatusInternalServerError: int := 500

  /** The JSON (or empty) bodies the handlers write. */
  datatype Body =
    | NoBody                                      // AbortWithStatus
    | ErrorBody(error: string)                    // {"error": ...}
    | TokenBody(token: string)                    // {"token": ...}
    | CashBody(cash: int)                         // {"cash": ...}
    | AdminBody(admin: Admin)
    | TrainerBody(trainer: Trainer)
    | ClientBody(client: Client)
    | WorkoutTypeBody(workoutType: WorkoutType)
    | WorkoutBody(workout: WorkoutResponse)
    | WorkoutsBody(workouts: seq<WorkoutResponse>)

  datatype Reply = Reply(status: int, body: Body)

  class Context {
    /** The request: its Authorization header ("" when absent) and its
        query parameters (the first value of each). */
    const header: string
    const query: map<string, string>

    /** What `c.Set` stored, the abort flag, and every response written,
        in order (the client sees the status of the first). */
    var keys: map<string, Identity>
    var aborted: bool
    var replies: seq<Reply>

    constructor (header: string, query: map<string, string>)
      ensures this.header == header && this.query == query
      ensures keys == map[] && !aborted && replies == []
    {
      this.header, this.query := header, query;
      keys, aborted, replies := map[], false, [];
    }

    /** `c.GetQuery(key)`: the value and whether the key is present. */
    function GetQuery(key: string): (r: Option<string>)
      ensures r.Some? <==> key in query
      ensures r.Some? ==> r.value == query[key]
    {
      if key in query then Some(query[key]) else None
    }

    /** `c.Query(key)`: the value, or "" when the key is absent. */
    function Query(key: string): (r: string)
      ensures key in query ==> r == query[key]
      ensures key !in query ==> r == ""
    {
      match GetQuery(key)
      case Some(v) => v
      case None => ""
    }

    /** `c.AbortWithStatusJSON` and `c.AbortWithStatus`: stop the handler
        chain and write one response. */
    method Abort(reply: Reply)
      modifies this`aborted, this`replies
      ensures aborted
      ensures replies == old(replies) + [reply]
    {
      aborted := true;
      replies := replies + [reply];
    }

    /** `c.Set(key, value)`. */
    method Set(key: string, value: Identity)
      modifies this`keys
      ensures keys == old(keys)[key := value]
    {
      keys := keys[key := value];
    }
  }
}
