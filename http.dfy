/**
 * What a gin handler leaves behind in its context: the status code, the JSON
 * object written (gin.H), the cookies set, the errors recorded in ctx.Errors
 * and whether the chain was aborted.
 */
module Http {
  import opened Wrappers
  import opened Types

  const StatusOK := 200
  const StatusCreated := 201
  const StatusNoContent := 204
  const StatusPermanentRedirect := 308
  const StatusBadRequest := 400
  const StatusUnauthorized := 401
  const StatusNotFound := 404
  const StatusConflict := 409
  const StatusInternalServerError := 500

  /** The values the handlers put under a key of a gin.H object. */
  datatype Value = Str(s: string) | UserValue(user: User) | UserList(users: seq<User>)

  /** A gin.H object as JSON: keys to values. */
  type Body = map<string, Value>

  /** The arguments of ctx.SetCookie, in its order. */
  datatype Cookie = Cookie(name: string, value: string, maxAge: int, path: string,
                           domain: string, secure: bool, httpOnly: bool)

  datatype Response = Response(status: int, body: Option<Body>, cookies: seq<Cookie>,
                               errors: seq<string>, aborted: bool)

  /** `{"error": msg}`, the body of every JSON failure. */
  function ErrorBody(msg: string): Body
  {
    map["error" := Str(msg)]
  }

  /** ctx.JSON(status, body). */
  function Json(status: int, body: Body): Response
  {
    Response(status, Some(body), [], [], false)
  }

  /** ctx.AbortWithStatusJSON(status, body). */
  function AbortJson(status: int, body: Body): Response
  {
    Response(status, Some(body), [], [], true)
  }

  /** ctx.AbortWithError(status, err): the status alone, no body, and err recorded in ctx.Errors. */
  function AbortWithError(status: int, err: string): Response
  {
    Response(status, None, [], [err], true)
  }

  /** ctx.Status(status): the status alone, no body. */
  function StatusOnly(status: int): Response
  {
    Response(status, None, [], [], false)
  }

  /** A failure answered with `{"error": msg}` and the chain aborted. */
  predicate IsError(r: Response, status: int, msg: string)
  {
    r == AbortJson(status, ErrorBody(msg))
  }
}
