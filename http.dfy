/** The slice of gin's request context that the gatekeeping middleware and
    the comment handlers read and write: the request line, the Authorization
    header, the client address, the route parameters, the per-request key
    store (c.Set / c.Get) and the response headers; and the two ways a
    middleware step ends, continuing the chain or aborting it. */
module Http {
  import opened Wrappers
  import opened Values

  datatype Method = GET | POST | PUT | DELETE | PATCH | HEAD | OPTIONS

  const StatusOK := 200
  const StatusCreated := 201
  const StatusBadRequest := 400
  const StatusUnauthorized := 401
  const StatusForbidden := 403
  const StatusNotFound := 404
  const StatusTooManyRequests := 429
  const StatusInternalServerError := 500

  /** dto.CommentCreateRequest. */
  datatype CreateRequest = CreateRequest(photoId: string, message: string)

  /** What c.ShouldBindJSON yields for this request's body for each of the
      two request types the comment handlers bind: dto.CommentCreateRequest,
      and dto.CommentReplyRequest (a message only). A failure carries the
      binder's error text. */
  datatype Body = Body(asCreate: Result<CreateRequest, string>, asMessage: Result<string, string>)

  /** The outcomes `binding:"required"` allows: a successful bind never
      leaves a required string field empty. */
  predicate Required(b: Body) {
    && (b.asCreate.Ok? ==> b.asCreate.value.photoId != "" && b.asCreate.value.message != "")
    && (b.asMessage.Ok? ==> b.asMessage.value != "")
  }

  /** An inbound request. `authorization` is the Authorization header as
      c.GetHeader returns it: the empty string when the header is absent. */
  datatype Request = Request(
    httpMethod: Method,
    path: string,
    authorization: string,
    clientIP: string,
    body: Body)

  /** The request context. `keys` is what c.Set stored; `header` holds the
      response headers written so far. */
  datatype Context = Context(
    req: Request,
    params: map<string, string>,
    keys: map<string, Json>,
    header: map<string, string>)

  /** The context gin creates when it dispatches `req` to a route whose
      pattern bound `params`: nothing stored, no header written. */
  function NewContext(req: Request, params: map<string, string>): Context {
    Context(req, params, map[], map[])
  }

  /** c.Param: the bound value, or "" when the route bound no such name
      (gin's lookup is by exact, case-sensitive name). */
  function Param(c: Context, name: string): (v: string)
    ensures name !in c.params ==> v == ""
    ensures name in c.params ==> v == c.params[name]
  {
    if name in c.params then c.params[name] else ""
  }

  /** The key under which Authentication stores the caller's claims. */
  const UserDataKey := "userData"

  /** The caller's id as downstream code reads it: `userData` is stored, is a
      map, and its "id" entry is a string. */
  function CallerId(c: Context): (r: Option<string>)
    ensures r.Some? <==>
      UserDataKey in c.keys && c.keys[UserDataKey].JObj? &&
      "id" in c.keys[UserDataKey].fields && c.keys[UserDataKey].fields["id"].JStr?
    ensures r.Some? ==> c.keys[UserDataKey].fields["id"] == JStr(r.value)
  {
    if UserDataKey in c.keys && c.keys[UserDataKey].JObj? then
      StringField(c.keys[UserDataKey].fields, "id")
    else None
  }

  /** How a middleware step ends: c.Next() with the (possibly extended)
      context, or c.AbortWithStatusJSON with a status and a message. The
      aborting variant keeps the context so that headers written before
      aborting (Retry-After) stay visible. */
  datatype Outcome =
    | Continue(ctx: Context)
    | Abort(status: int, message: string, ctx: Context)

  /** What gin.Recovery answers when a handler panics (a failed c.MustGet, a
      failed type assertion, uuid.MustParse on a bad string): status 500
      with an empty body. */
  const PanicMessage := ""
}
