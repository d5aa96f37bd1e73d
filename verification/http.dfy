/** What the HTTP handlers of every backend return. */
module Http {
  import opened Wrappers
  import opened Json

  /** A status code and a JSON body. */
  datatype Response = Response(status: int, body: Json)

  /** A body of the form `{key: message}`. */
  function Message(status: int, key: string, message: string): (r: Response)
    ensures r.status == status && r.body.JObj? && Get(r.body.fields, key) == Some(JStr(message))
  {
    Response(status, JObj([(key, JStr(message))]))
  }

  /** A body of the form `{"message": message, "error": error}`. */
  function Failure(status: int, message: string, error: string): (r: Response)
    ensures r.status == status && r.body.JObj?
    ensures Get(r.body.fields, "message") == Some(JStr(message))
    ensures Get(r.body.fields, "error") == Some(JStr(error))
  {
    Response(status, JObj([("message", JStr(message)), ("error", JStr(error))]))
  }

  /** `req.get('body', {})`. */
  function BodyOf(body: Option<Json>): Json {
    body.GetOr(JObj([]))
  }
}
