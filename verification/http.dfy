/** HTTP responses as the route handlers produce them, with whether the
    handler committed its transaction. */
module Http {
  import opened Wrappers
  import opened Json

  /** The status, the body and whether `conn.commit()` ran before the handler returned. */
  datatype Response = Response(status: int, body: Json, committed: bool)

  const OK := 200

  /** `{"status": "success", ...}` returned after committing or not. */
  function Success(fields: seq<(string, Json)>, committed: bool): (r: Response)
    ensures r.status == OK && r.committed == committed
    ensures Field(r.body, "status") == Some(JStr("success"))
    ensures forall key :: key != "status" ==> Field(r.body, key) == FieldIn(fields, key)
  {
    Response(OK, JObj([("status", JStr("success"))] + fields), committed)
  }

  /** `raise HTTPException(status_code=..., detail=...)`: FastAPI answers
      `{"detail": ...}`, and the handler never reached its commit. */
  function Raise(status: int, detail: string): (r: Response)
    ensures r.status == status && !r.committed
    ensures Field(r.body, "detail") == Some(JStr(detail))
  {
    Response(status, JObj([("detail", JStr(detail))]), false)
  }

  /** An exception no handler catches: the server answers 500 with a plain-text
      body, and the transaction is not committed. */
  const INTERNAL_SERVER_ERROR := Response(500, JStr("Internal Server Error"), false)

  /** The invariant every handler keeps: a transaction is committed only on the success path. */
  predicate CommitsOnlyOnSuccess(r: Response)
  {
    r.committed ==> r.status == OK
  }

  /** Object keys as a handler spells them: the value under `key`. */
  function Get(body: Json, path: seq<string>): (r: Option<Json>)
    ensures path == [] ==> r == Some(body)
    ensures |path| == 1 ==> r == Field(body, path[0])
    decreases |path|
  {
    if path == [] then Some(body)
    else
      match Field(body, path[0])
      case None => None
      case Some(inner) => Get(inner, path[1..])
  }
}
