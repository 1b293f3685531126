/** One request end to end: gin selects the route by method and path,
    creates the request context, and runs the route's handlers in order
    until a middleware aborts or the controller answers. What a request can
    change is the limiter's counters (Redis) and the comment table
    (PostgreSQL); the comment handlers are the ones of the comment
    controller, the other controllers are given as a parameter. */
module Server {
  import opened Wrappers
  import opened Values
  import opened Http
  import opened Auth
  import opened Comments
  import opened Router
  import RateLimiter

  /** The state a request can change. */
  datatype World = World(counters: RateLimiter.Counters, comments: Table)

  /** What the client receives: the status, the message of the JSON body,
      the comment data it carries, and the response headers. */
  datatype Response = Response(status: int, message: string, data: Data, header: map<string, string>)

  /** gin's answer when no route of the request's method fits its path. */
  const NotFoundBody := "404 page not found"

  /** What the model takes as given: the token service, the UUID codec, the
      owner lookup of photos and social media entries (their tables are not
      part of this model), and the status and message the user, photo,
      social media and swagger controllers answer with. */
  datatype Env = Env(ts: TokenService, u: UuidCodec, owners: OwnerLookup, others: (Action, Context) -> (int, string))

  /** The owner Authorization("comment") reads: the user_id of the comment
      row with that id. */
  function CommentOwner(t: Table, id: Uuid): (r: Option<Uuid>)
    ensures r.Some? <==> t.available && Find(t.rows, id).Some?
    ensures r.Some? ==> r.value == Find(t.rows, id).value.userId
  {
    if !t.available then None
    else match Find(t.rows, id)
      case None => None
      case Some(cm) => Some(cm.userId)
  }

  function Owners(env: Env, t: Table): (o: OwnerLookup)
    ensures forall id :: o(CommentKind, id) == CommentOwner(t, id)
    ensures forall k, id :: k != CommentKind ==> o(k, id) == env.owners(k, id)
  {
    (k: Kind, id: Uuid) => if k == CommentKind then CommentOwner(t, id) else env.owners(k, id)
  }

  function Answer(rep: Reply, c: Context): Response {
    Response(rep.status, rep.message, rep.data, c.header)
  }

  function Refusal(o: Outcome): Response
    requires o.Abort?
  {
    Response(o.status, o.message, NoData, o.ctx.header)
  }

  /** The actions of the comment controller that write the table. */
  predicate Writes(a: Action) {
    a == CreateComment || a == CreateReply || a == UpdateComment || a == DeleteComment
  }

  /** The controller a route ends in. Only the writing comment actions
      change the world, and none touches the counters. */
  function RunController(env: Env, w: World, a: Action, c: Context, freshId: Uuid): (r: (World, Response))
    ensures r.0.counters == w.counters
    ensures !Writes(a) ==> r.0 == w
    ensures !CommentAction(a) ==> r.1 == Response(env.others(a, c).0, env.others(a, c).1, NoData, c.header)
  {
    match a
    case CreateComment =>
      var step := CreateSpec(env.u, w.comments, c, freshId);
      (w.(comments := step.0), Answer(step.1, c))
    case ListComments => (w, Answer(GetAllSpec(env.u, w.comments), c))
    case CreateReply =>
      var step := CreateReplySpec(env.u, w.comments, c, freshId);
      (w.(comments := step.0), Answer(step.1, c))
    case ListReplies => (w, Answer(GetRepliesSpec(env.u, w.comments, c), c))
    case UpdateComment =>
      var step := UpdateSpec(env.u, w.comments, c);
      (w.(comments := step.0), Answer(step.1, c))
    case DeleteComment =>
      var step := DeleteSpec(env.u, w.comments, c);
      (w.(comments := step.0), Answer(step.1, c))
    case _ =>
      var ans := env.others(a, c);
      (w, Response(ans.0, ans.1, NoData, c.header))
  }

  predicate CommentAction(a: Action) {
    Writes(a) || a == ListComments || a == ListReplies
  }

  /** The handlers of a route, run in order. Logger, the two Recovery
      handlers and CORS pass the request on (a panic is already answered
      500 by the step that raises it); a middleware that aborts ends the
      chain with its status and message; the controller answers. The
      counters change only in a rate limiter step and the comment table only
      in a controller. */
  function RunChain(env: Env, w: World, hs: seq<Handler>, c: Context, freshId: Uuid): (r: (World, Response))
    ensures (forall i :: 0 <= i < |hs| ==> !hs[i].RateLimit?) ==> r.0.counters == w.counters
    ensures (forall i :: 0 <= i < |hs| ==> !hs[i].Controller?) ==> r.0.comments == w.comments
    decreases |hs|
  {
    if |hs| == 0 then (w, Response(StatusOK, "", NoData, c.header))
    else match hs[0]
      case Logger => RunChain(env, w, hs[1..], c, freshId)
      case Recovery => RunChain(env, w, hs[1..], c, freshId)
      case Cors => RunChain(env, w, hs[1..], c, freshId)
      case Authentication =>
        var o := Authenticate(env.ts, c);
        if o.Abort? then (w, Refusal(o)) else RunChain(env, w, hs[1..], o.ctx, freshId)
      case RateLimit(l) =>
        var step := RateLimiter.LimitStep(l, w.counters, c);
        var w' := w.(counters := step.0);
        if step.1.Abort? then (w', Refusal(step.1)) else RunChain(env, w', hs[1..], step.1.ctx, freshId)
      case Authorization(k) =>
        var o := Authorize(env.u, Owners(env, w.comments), k, c);
        if o.Abort? then (w, Refusal(o)) else RunChain(env, w, hs[1..], o.ctx, freshId)
      case Controller(a) => RunController(env, w, a, c, freshId)
  }

  /** A request: an unmatched method and path answers 404 and changes
      nothing; otherwise the matched route's chain runs on a fresh context
      holding the parameters its pattern bound. `freshId` is the id
      uuid.New() would give a comment this request creates. */
  function Dispatch(env: Env, w: World, routes: seq<Route>, req: Request, freshId: Uuid): (r: (World, Response))
    ensures Lookup(routes, req.httpMethod, req.path).None? ==>
      r == (w, Response(StatusNotFound, NotFoundBody, NoData, map[]))
  {
    match Lookup(routes, req.httpMethod, req.path)
    case None => (w, Response(StatusNotFound, NotFoundBody, NoData, map[]))
    case Some(found) => RunChain(env, w, found.0.handlers, NewContext(req, found.1), freshId)
  }

  // ------------------------------------------------------------ serving

  /** The controller on the live comment table. */
  method Control(env: Env, table: CommentTable, ghost counters: RateLimiter.Counters, a: Action, c: Context, freshId: Uuid)
    returns (resp: Response)
    modifies table
    ensures var r := RunController(env, World(counters, old(table.State())), a, c, freshId);
      table.State() == r.0.comments && resp == r.1
  {
    match a
    case CreateComment =>
      var rep := table.Create(env.u, c, freshId);
      resp := Answer(rep, c);
    case ListComments =>
      var rep := table.GetAll(env.u);
      resp := Answer(rep, c);
    case CreateReply =>
      var rep := table.CreateReply(env.u, c, freshId);
      resp := Answer(rep, c);
    case ListReplies =>
      var rep := table.GetReplies(env.u, c);
      resp := Answer(rep, c);
    case UpdateComment =>
      var rep := table.Update(env.u, c);
      resp := Answer(rep, c);
    case DeleteComment =>
      var rep := table.Delete(env.u, c);
      resp := Answer(rep, c);
    case _ =>
      var ans := env.others(a, c);
      resp := Response(ans.0, ans.1, NoData, c.header);
  }

  /** gin's handling of one request on the live stores: look the route up,
      then run its handlers one at a time, as c.Next does, stopping at the
      first abort or at the controller. */
  method Serve(env: Env, store: RateLimiter.CounterStore, table: CommentTable, routes: seq<Route>, req: Request, freshId: Uuid)
    returns (resp: Response)
    requires store.Valid()
    modifies store, table
    ensures store.Valid()
    ensures (World(store.State(), table.State()), resp) ==
      Dispatch(env, World(old(store.State()), old(table.State())), routes, req, freshId)
  {
    var found := Lookup(routes, req.httpMethod, req.path);
    if found.None? {
      return Response(StatusNotFound, NotFoundBody, NoData, map[]);
    }
    var hs := found.value.0.handlers;
    var c := NewContext(req, found.value.1);
    ghost var target := RunChain(env, World(store.State(), table.State()), hs, c, freshId);
    var i := 0;
    while i < |hs|
      invariant 0 <= i <= |hs|
      invariant store.Valid()
      invariant RunChain(env, World(store.State(), table.State()), hs[i..], c, freshId) == target
      decreases |hs| - i
    {
      assert hs[i..] == [hs[i]] + hs[i + 1..];
      var done;
      done, resp, c := Step(env, store, table, hs[i], hs[i + 1..], c, freshId);
      if done {
        return;
      }
      i := i + 1;
    }
    resp := Response(StatusOK, "", NoData, c.header);
  }

  /** One handler of a chain on the live stores: either the request is
      answered (`done`, by an abort or by the controller), or it goes on to
      the `rest` of the chain with the context `c'`. */
  method Step(env: Env, store: RateLimiter.CounterStore, table: CommentTable, h: Handler, ghost rest: seq<Handler>,
              c: Context, freshId: Uuid)
    returns (done: bool, resp: Response, c': Context)
    requires store.Valid()
    modifies store, table
    ensures store.Valid()
    ensures var before := RunChain(env, World(old(store.State()), old(table.State())), [h] + rest, c, freshId);
      if done then (World(store.State(), table.State()), resp) == before
      else RunChain(env, World(store.State(), table.State()), rest, c', freshId) == before
  {
    ghost var w := World(store.State(), table.State());
    done, resp, c' := false, Response(StatusOK, "", NoData, c.header), c;
    match h {
      case Logger =>
        RunPassThrough(env, w, h, rest, c, freshId);
      case Recovery =>
        RunPassThrough(env, w, h, rest, c, freshId);
      case Cors =>
        RunPassThrough(env, w, h, rest, c, freshId);
      case Authentication =>
        RunAuthentication(env, w, rest, c, freshId);
        var o := Authenticate(env.ts, c);
        if o.Abort? {
          done, resp := true, Refusal(o);
        } else {
          c' := o.ctx;
        }
      case RateLimit(l) =>
        RunLimitStep(env, w, l, rest, c, freshId);
        var o := RateLimiter.Limit(l, store, c);
        if o.Abort? {
          done, resp := true, Refusal(o);
        } else {
          c' := o.ctx;
        }
      case Authorization(k) =>
        RunAuthorization(env, w, k, rest, c, freshId);
        var o := Authorize(env.u, Owners(env, table.State()), k, c);
        if o.Abort? {
          done, resp := true, Refusal(o);
        } else {
          c' := o.ctx;
        }
      case Controller(a) =>
        RunControllerStep(env, w, a, rest, c, freshId);
        resp := Control(env, table, w.counters, a, c, freshId);
        done := true;
    }
  }

  // ---------------------------------------------------- chain prefixes

  /** Logger, Recovery and Cors pass the request on unchanged. */
  lemma RunPassThrough(env: Env, w: World, h: Handler, rest: seq<Handler>, c: Context, freshId: Uuid)
    requires h == Logger || h == Recovery || h == Cors
    ensures RunChain(env, w, [h] + rest, c, freshId) == RunChain(env, w, rest, c, freshId)
  {
    assert ([h] + rest)[0] == h && ([h] + rest)[1..] == rest;
  }

  /** The global middleware passes every request on unchanged. */
  lemma RunGlobal(env: Env, w: World, rest: seq<Handler>, c: Context, freshId: Uuid)
    ensures RunChain(env, w, Global + rest, c, freshId) == RunChain(env, w, rest, c, freshId)
  {
    assert Global + rest == [Logger] + ([Recovery] + ([Recovery] + ([Cors] + rest)));
    RunPassThrough(env, w, Logger, [Recovery] + ([Recovery] + ([Cors] + rest)), c, freshId);
    RunPassThrough(env, w, Recovery, [Recovery] + ([Cors] + rest), c, freshId);
    RunPassThrough(env, w, Recovery, [Cors] + rest, c, freshId);
    RunPassThrough(env, w, Cors, rest, c, freshId);
  }

  /** On an authenticated route, a request is refused by Authentication
      with nothing changed, or continues with the caller's claims stored. */
  lemma RunAuthenticated(env: Env, w: World, rest: seq<Handler>, c: Context, freshId: Uuid)
    ensures var o := Authenticate(env.ts, c);
      RunChain(env, w, Authenticated + rest, c, freshId) ==
        if o.Abort? then (w, Refusal(o)) else RunChain(env, w, rest, o.ctx, freshId)
  {
    assert Authenticated + rest == Global + ([Authentication] + rest);
    RunGlobal(env, w, [Authentication] + rest, c, freshId);
    RunAuthentication(env, w, rest, c, freshId);
  }

  /** Authentication alone, at the head of a chain. */
  lemma RunAuthentication(env: Env, w: World, rest: seq<Handler>, c: Context, freshId: Uuid)
    ensures var o := Authenticate(env.ts, c);
      RunChain(env, w, [Authentication] + rest, c, freshId) ==
        if o.Abort? then (w, Refusal(o)) else RunChain(env, w, rest, o.ctx, freshId)
  {
    assert ([Authentication] + rest)[0] == Authentication && ([Authentication] + rest)[1..] == rest;
  }

  /** The rate limiter alone, at the head of a chain. */
  lemma RunLimitStep(env: Env, w: World, l: RateLimiter.LimiterConfig, rest: seq<Handler>, c: Context, freshId: Uuid)
    ensures var step := RateLimiter.LimitStep(l, w.counters, c);
      var w' := w.(counters := step.0);
      RunChain(env, w, [RateLimit(l)] + rest, c, freshId) ==
        if step.1.Abort? then (w', Refusal(step.1)) else RunChain(env, w', rest, step.1.ctx, freshId)
  {
    assert ([RateLimit(l)] + rest)[0] == RateLimit(l) && ([RateLimit(l)] + rest)[1..] == rest;
  }

  /** The controller answers at once: what follows it never runs. */
  lemma RunControllerStep(env: Env, w: World, a: Action, rest: seq<Handler>, c: Context, freshId: Uuid)
    ensures RunChain(env, w, [Controller(a)] + rest, c, freshId) == RunController(env, w, a, c, freshId)
  {
    assert ([Controller(a)] + rest)[0] == Controller(a);
  }

  /** The controller alone. */
  lemma RunControllerOnly(env: Env, w: World, a: Action, c: Context, freshId: Uuid)
    ensures RunChain(env, w, [Controller(a)], c, freshId) == RunController(env, w, a, c, freshId)
  {
  }

  /** Authorization, then the controller: only the owner reaches it. */
  lemma RunOwned(env: Env, w: World, k: string, a: Action, c: Context, freshId: Uuid)
    ensures var o := Authorize(env.u, Owners(env, w.comments), k, c);
      RunChain(env, w, [Authorization(k), Controller(a)], c, freshId) ==
        if o.Abort? then (w, Refusal(o)) else RunController(env, w, a, c, freshId)
  {
    RunAuthorization(env, w, k, [Controller(a)], c, freshId);
    RunControllerOnly(env, w, a, c, freshId);
  }

  /** Authorization alone, at the head of a chain. */
  lemma RunAuthorization(env: Env, w: World, k: string, rest: seq<Handler>, c: Context, freshId: Uuid)
    ensures var o := Authorize(env.u, Owners(env, w.comments), k, c);
      RunChain(env, w, [Authorization(k)] + rest, c, freshId) ==
        if o.Abort? then (w, Refusal(o)) else RunChain(env, w, rest, o.ctx, freshId)
  {
    assert ([Authorization(k)] + rest)[0] == Authorization(k) && ([Authorization(k)] + rest)[1..] == rest;
  }

  /** The rate limiter, then the controller: the counter step happens
      whether or not the request is let through. */
  lemma RunLimited(env: Env, w: World, l: RateLimiter.LimiterConfig, a: Action, c: Context, freshId: Uuid)
    ensures var step := RateLimiter.LimitStep(l, w.counters, c);
      var w' := w.(counters := step.0);
      RunChain(env, w, [RateLimit(l), Controller(a)], c, freshId) ==
        if step.1.Abort? then (w', Refusal(step.1)) else RunController(env, w', a, c, freshId)
  {
    assert [RateLimit(l), Controller(a)][1..] == [Controller(a)];
    var step := RateLimiter.LimitStep(l, w.counters, c);
    RunControllerOnly(env, w.(counters := step.0), a, c, freshId);
  }

  // ------------------------------------------------- end-to-end properties

  /** The route a request of the table is dispatched to obeys the route policies. */
  lemma DispatchedRoute(l: RateLimiter.LimiterConfig, req: Request, r: Route, params: map<string, string>)
    requires Lookup(Routes(l), req.httpMethod, req.path) == Some((r, params))
    ensures Policies(l, r)
  {
    RoutePolicies(l);
  }

  /** A request on any non-public route whose token Authentication refuses
      gets 401 and changes nothing: no counter is incremented and no comment
      is written. */
  lemma UnauthenticatedChangesNothing(env: Env, w: World, l: RateLimiter.LimiterConfig, req: Request, freshId: Uuid,
                                      r: Route, params: map<string, string>)
    requires Lookup(Routes(l), req.httpMethod, req.path) == Some((r, params))
    requires Authentication in r.handlers
    requires Authenticate(env.ts, NewContext(req, params)).Abort?
    ensures Dispatch(env, w, Routes(l), req, freshId) == (w, Refusal(Authenticate(env.ts, NewContext(req, params))))
    ensures Dispatch(env, w, Routes(l), req, freshId).1.status == StatusUnauthorized
  {
    DispatchedRoute(l, req, r, params);
    RunAuthenticated(env, w, r.handlers[|Authenticated|..], NewContext(req, params), freshId);
    assert r.handlers == Authenticated + r.handlers[|Authenticated|..];
  }

  /** In particular a request without an Authorization header. */
  lemma MissingHeaderRefused(env: Env, w: World, l: RateLimiter.LimiterConfig, req: Request, freshId: Uuid,
                             r: Route, params: map<string, string>)
    requires Lookup(Routes(l), req.httpMethod, req.path) == Some((r, params))
    requires r.pattern[0] != Lit("swagger") && r.pattern[0] != Lit("auth")
    requires req.authorization == ""
    ensures Dispatch(env, w, Routes(l), req, freshId) ==
      (w, Response(StatusUnauthorized, MissingTokenMessage, NoData, map[]))
  {
    DispatchedRoute(l, req, r, params);
    UnauthenticatedChangesNothing(env, w, l, req, freshId, r, params);
  }

  /** On a route that checks ownership, a caller Authorization refuses
      (not the owner, a missing resource, a malformed id) gets its answer
      and changes nothing: such routes carry no rate limiter. */
  lemma RefusedOwnershipChangesNothing(env: Env, w: World, l: RateLimiter.LimiterConfig, req: Request, freshId: Uuid,
                                       r: Route, params: map<string, string>, k: string)
    requires Lookup(Routes(l), req.httpMethod, req.path) == Some((r, params))
    requires Authorization(k) in r.handlers
    requires Authenticate(env.ts, NewContext(req, params)).Continue?
    requires Authorize(env.u, Owners(env, w.comments), k, Authenticate(env.ts, NewContext(req, params)).ctx).Abort?
    ensures Dispatch(env, w, Routes(l), req, freshId) ==
      (w, Refusal(Authorize(env.u, Owners(env, w.comments), k, Authenticate(env.ts, NewContext(req, params)).ctx)))
  {
    DispatchedRoute(l, req, r, params);
    DispatchRuns(env, w, l, req, freshId, r, params);
    var last := OwnedChain(l, r, k);
    var c' := Authenticate(env.ts, NewContext(req, params)).ctx;
    RunAuthenticated(env, w, [Authorization(k)] + [last], NewContext(req, params), freshId);
    RunAuthorization(env, w, k, [last], c', freshId);
  }

  /** A dispatched request runs the chain of its route on a fresh context. */
  lemma DispatchRuns(env: Env, w: World, l: RateLimiter.LimiterConfig, req: Request, freshId: Uuid,
                     r: Route, params: map<string, string>)
    requires Lookup(Routes(l), req.httpMethod, req.path) == Some((r, params))
    ensures Dispatch(env, w, Routes(l), req, freshId) == RunChain(env, w, r.handlers, NewContext(req, params), freshId)
  {
  }

  /** A route that checks ownership runs Authentication, Authorization and
      its controller `last` after the global middleware. */
  lemma OwnedChain(l: RateLimiter.LimiterConfig, r: Route, k: string) returns (last: Handler)
    requires Policies(l, r) && Authorization(k) in r.handlers
    ensures r.handlers == Authenticated + ([Authorization(k)] + [last])
  {
    last := r.handlers[|r.handlers| - 1];
    assert [Authorization(k), last] == [Authorization(k)] + [last];
  }

  /** The case the ownership check exists for: an authenticated caller who
      does not own an existing comment cannot update or delete it; the
      answer is 403 and the table is unchanged. */
  lemma ForeignCommentForbidden(env: Env, w: World, l: RateLimiter.LimiterConfig, req: Request, freshId: Uuid,
                                r: Route, params: map<string, string>, id: Uuid, cm: Comment)
    requires Lookup(Routes(l), req.httpMethod, req.path) == Some((r, params))
    requires Authorization("comment") in r.handlers
    requires Authenticate(env.ts, NewContext(req, params)).Continue?
    requires CallerUuid(env.u, Authenticate(env.ts, NewContext(req, params)).ctx).Some?
    requires env.u.parse(Param(NewContext(req, params), "commentID")) == Some(id)
    requires w.comments.available && Find(w.comments.rows, id) == Some(cm)
    requires Some(cm.userId) != CallerUuid(env.u, Authenticate(env.ts, NewContext(req, params)).ctx)
    ensures Dispatch(env, w, Routes(l), req, freshId) ==
      (w, Response(StatusForbidden, ForbiddenMessage("comment"), NoData, map[]))
  {
    var c := NewContext(req, params);
    var c' := Authenticate(env.ts, c).ctx;
    AuthenticatedCaller(env.ts, c);
    assert Param(c', "commentID") == Param(c, "commentID");
    ForeignCommentAuthorize(env, w.comments, c', id, cm);
    RefusedOwnershipChangesNothing(env, w, l, req, freshId, r, params, "comment");
  }

  lemma ForeignCommentAuthorize(env: Env, t: Table, c: Context, id: Uuid, cm: Comment)
    requires CallerUuid(env.u, c).Some?
    requires env.u.parse(Param(c, "commentID")) == Some(id)
    requires t.available && Find(t.rows, id) == Some(cm)
    requires Some(cm.userId) != CallerUuid(env.u, c)
    ensures Authorize(env.u, Owners(env, t), "comment", c) == Abort(StatusForbidden, ForbiddenMessage("comment"), c)
  {
    assert KindOf("comment") == Some(CommentKind);
    assert ResourceParam("comment") == "commentID";
    assert CommentOwner(t, id) == Some(cm.userId);
    assert Owners(env, t)(CommentKind, id) == Some(cm.userId);
  }

  /** On a rate-limited route (creating a photo, a comment or a reply), an
      authenticated caller whose counter already stands at the limit is
      refused with 429, the limit message and a Retry-After header holding
      the seconds left (between 1 and the window while the window is
      healthy), and nothing is created. */
  lemma OverLimitRefused(env: Env, w: World, limit: int, window: nat, req: Request, freshId: Uuid,
                         r: Route, params: map<string, string>)
    requires Lookup(Routes(RateLimiter.Limited(limit, window)), req.httpMethod, req.path) == Some((r, params))
    requires RateLimit(RateLimiter.Limited(limit, window)) in r.handlers
    requires RateLimiter.Live(w.counters) && w.counters.reachable && window > 0
    requires Authenticate(env.ts, NewContext(req, params)).Continue?
    requires var key := RateLimiter.CounterKey(Authenticate(env.ts, NewContext(req, params)).ctx);
      limit <= RateLimiter.Count(w.counters, key) < RateLimiter.MaxInt64
    ensures var d := Dispatch(env, w, Routes(RateLimiter.Limited(limit, window)), req, freshId);
      var key := RateLimiter.CounterKey(Authenticate(env.ts, NewContext(req, params)).ctx);
      var ttl := RateLimiter.TtlStep(d.0.counters, key);
      && d.1.status == StatusTooManyRequests
      && d.1.message == RateLimiter.LimitMessage(limit, window, ttl)
      && RateLimiter.RetryAfterHeader in d.1.header
      && d.1.header[RateLimiter.RetryAfterHeader] == Strings.NatToString(RateLimiter.RetryAfterSeconds(ttl))
      && (RateLimiter.HealthyWindow(w.counters, key, window) ==> 1 <= RateLimiter.RetryAfterSeconds(ttl) <= window)
      && d.0.comments == w.comments
  {
    var l := RateLimiter.Limited(limit, window);
    DispatchedRoute(l, req, r, params);
    var last := r.handlers[|r.handlers| - 1];
    assert r.handlers == Authenticated + [RateLimit(l), last];
    var c' := Authenticate(env.ts, NewContext(req, params)).ctx;
    RunAuthenticated(env, w, [RateLimit(l), last], NewContext(req, params), freshId);
    RunLimited(env, w, l, last.action, c', freshId);
    RateLimiter.OneRequest(limit, window, w.counters, c');
  }

  /** The same refusal on the routes SetupRouter builds, ten requests a
      minute: the message names "10 requests per 1m0s" and the header holds
      the seconds left, at most 60 while the window is healthy. */
  lemma InstalledOverLimitRefused(env: Env, w: World, limit: int, window: nat, req: Request, freshId: Uuid,
                                  r: Route, params: map<string, string>)
    requires limit == MaxRequests && window == RateWindowSeconds
    requires Lookup(Routes(RateLimiter.Limited(limit, window)), req.httpMethod, req.path) == Some((r, params))
    requires RateLimit(RateLimiter.Limited(limit, window)) in r.handlers
    requires RateLimiter.Live(w.counters) && w.counters.reachable
    requires Authenticate(env.ts, NewContext(req, params)).Continue?
    requires var key := RateLimiter.CounterKey(Authenticate(env.ts, NewContext(req, params)).ctx);
      limit <= RateLimiter.Count(w.counters, key) < RateLimiter.MaxInt64
    ensures var d := Dispatch(env, w, Routes(RateLimiter.Limited(limit, window)), req, freshId);
      var key := RateLimiter.CounterKey(Authenticate(env.ts, NewContext(req, params)).ctx);
      var seconds := RateLimiter.RetryAfterSeconds(RateLimiter.TtlStep(d.0.counters, key));
      && d.1.status == StatusTooManyRequests
      && d.1.message == "Rate limit exceeded. You are limited to " + "10" + " requests per "
                        + ("1m0s" + (". Try again in " + Strings.NatToString(seconds) + " seconds."))
      && RateLimiter.RetryAfterHeader in d.1.header
      && d.1.header[RateLimiter.RetryAfterHeader] == Strings.NatToString(seconds)
      && (RateLimiter.HealthyWindow(w.counters, key, window) ==> 1 <= seconds <= 60)
      && d.0.comments == w.comments
  {
    OverLimitRefused(env, w, limit, window, req, freshId, r, params);
    var d := Dispatch(env, w, Routes(RateLimiter.Limited(limit, window)), req, freshId);
    var key := RateLimiter.CounterKey(Authenticate(env.ts, NewContext(req, params)).ctx);
    RateLimiter.InstalledLimitMessage(RateLimiter.TtlStep(d.0.counters, key));
  }

  /** The parameter mismatch of the social media routes: the owner of an
      entry passes Authorization, which reads "socialmediaID", and reaches
      the controller with a context in which "socialMediaID", the name the
      social media controller reads, is unbound and reads as "". */
  lemma SocialMediaOwnerGetsNoId(env: Env, w: World, l: RateLimiter.LimiterConfig, req: Request, freshId: Uuid,
                                 r: Route, params: map<string, string>)
    requires Lookup(Routes(l), req.httpMethod, req.path) == Some((r, params))
    requires Authorization("socialmedia") in r.handlers
    requires Authenticate(env.ts, NewContext(req, params)).Continue?
    requires Authorize(env.u, Owners(env, w.comments), "socialmedia", Authenticate(env.ts, NewContext(req, params)).ctx).Continue?
    ensures var c' := Authenticate(env.ts, NewContext(req, params)).ctx;
      && env.u.parse(Param(c', ResourceParam("socialmedia"))).Some?
      && Param(c', "socialMediaID") == ""
      && r.handlers[|r.handlers| - 1].Controller?
      && Dispatch(env, w, Routes(l), req, freshId) == RunController(env, w, r.handlers[|r.handlers| - 1].action, c', freshId)
  {
    DispatchedRoute(l, req, r, params);
    var last := r.handlers[|r.handlers| - 1];
    assert r.handlers == Authenticated + [Authorization("socialmedia"), last];
    var c := NewContext(req, params);
    var c' := Authenticate(env.ts, c).ctx;
    AuthenticatedCaller(env.ts, c);
    ContinuesOnlyForOwner(env.u, Owners(env, w.comments), "socialmedia", c');
    SocialMediaIdUnbound(l, req.httpMethod, req.path);
    assert Param(c', "socialMediaID") == "";
    RunAuthenticated(env, w, [Authorization("socialmedia"), last], c, freshId);
    RunOwned(env, w, "socialmedia", last.action, c', freshId);
  }

  /** Among the actions this model runs, the comment table changes only
      through a writing comment action, and only after Authentication
      accepted the caller, the rate limiter (where the route has one) let the
      request through, and Authorization (where the route has one) found the
      caller to be the owner. The photo and user controllers are given
      functions that leave the table alone, so the comments their deletes
      remove by cascade are not covered. */
  lemma TableChangesOnlyThroughChecks(env: Env, w: World, l: RateLimiter.LimiterConfig, req: Request, freshId: Uuid,
                                      r: Route, params: map<string, string>)
    requires Lookup(Routes(l), req.httpMethod, req.path) == Some((r, params))
    requires Dispatch(env, w, Routes(l), req, freshId).0.comments != w.comments
    ensures r.handlers[|r.handlers| - 1].Controller? && Writes(r.handlers[|r.handlers| - 1].action)
    ensures Authenticate(env.ts, NewContext(req, params)).Continue?
    ensures RateLimit(l) in r.handlers ==>
      RateLimiter.LimitStep(l, w.counters, Authenticate(env.ts, NewContext(req, params)).ctx).1.Continue?
    ensures forall k :: Authorization(k) in r.handlers ==>
      Authorize(env.u, Owners(env, w.comments), k, Authenticate(env.ts, NewContext(req, params)).ctx).Continue?
  {
    DispatchedRoute(l, req, r, params);
    ChainWritesOnlyThroughChecks(env, w, l, r, NewContext(req, params), freshId);
  }

  /** What a chain that changed the table has passed: it ends in a writing
      controller, and Authentication, the rate limiter and Authorization
      have all let the request through. */
  ghost predicate ChecksPassed(env: Env, w: World, l: RateLimiter.LimiterConfig, r: Route, c: Context) {
    && |r.handlers| > 0
    && r.handlers[|r.handlers| - 1].Controller? && Writes(r.handlers[|r.handlers| - 1].action)
    && Authenticate(env.ts, c).Continue?
    && (RateLimit(l) in r.handlers ==> RateLimiter.LimitStep(l, w.counters, Authenticate(env.ts, c).ctx).1.Continue?)
    && (forall k :: Authorization(k) in r.handlers ==>
          Authorize(env.u, Owners(env, w.comments), k, Authenticate(env.ts, c).ctx).Continue?)
  }

  /** The same for one chain of the route table. */
  lemma ChainWritesOnlyThroughChecks(env: Env, w: World, l: RateLimiter.LimiterConfig, r: Route, c: Context, freshId: Uuid)
    requires Policies(l, r)
    requires RunChain(env, w, r.handlers, c, freshId).0.comments != w.comments
    ensures r.handlers[|r.handlers| - 1].Controller? && Writes(r.handlers[|r.handlers| - 1].action)
    ensures Authenticate(env.ts, c).Continue?
    ensures RateLimit(l) in r.handlers ==> RateLimiter.LimitStep(l, w.counters, Authenticate(env.ts, c).ctx).1.Continue?
    ensures forall k :: Authorization(k) in r.handlers ==>
      Authorize(env.u, Owners(env, w.comments), k, Authenticate(env.ts, c).ctx).Continue?
  {
    var last := r.handlers[|r.handlers| - 1];
    if r.handlers == Global + [last] {
      PublicRouteWritesNothing(env, w, l, r, c, freshId);
      assert false;
    } else if r.handlers == Authenticated + [last] {
      PlainRouteChecks(env, w, l, r, c, freshId);
    } else if r.handlers == Authenticated + [RateLimit(l), last] {
      LimitedRouteChecks(env, w, l, r, c, freshId);
    } else {
      OwnedRouteChecks(env, w, l, r, c, freshId);
    }
  }

  lemma PublicRouteWritesNothing(env: Env, w: World, l: RateLimiter.LimiterConfig, r: Route, c: Context, freshId: Uuid)
    requires Policies(l, r) && |r.handlers| > 0 && r.handlers == Global + [r.handlers[|r.handlers| - 1]]
    ensures RunChain(env, w, r.handlers, c, freshId).0 == w
  {
    var last := r.handlers[|r.handlers| - 1];
    assert Authentication !in r.handlers by {
      assert forall h :: h in r.handlers ==> h in Global || h == last;
    }
    PublicChainWritesNothing(env, w, last.action, c, freshId);
  }

  lemma PlainRouteChecks(env: Env, w: World, l: RateLimiter.LimiterConfig, r: Route, c: Context, freshId: Uuid)
    requires ControllerLast(r) && r.handlers == Authenticated + [r.handlers[|r.handlers| - 1]]
    requires RunChain(env, w, r.handlers, c, freshId).0.comments != w.comments
    ensures ChecksPassed(env, w, l, r, c)
  {
    var last := r.handlers[|r.handlers| - 1];
    PlainChainWrites(env, w, last.action, c, freshId);
    OnlyAuthentication(env, w, l, r, last, c);
  }

  lemma OnlyAuthentication(env: Env, w: World, l: RateLimiter.LimiterConfig, r: Route, last: Handler, c: Context)
    requires r.handlers == Authenticated + [last] && last.Controller? && Writes(last.action)
    requires Authenticate(env.ts, c).Continue?
    ensures ChecksPassed(env, w, l, r, c)
  {
    assert r.handlers == [Logger, Recovery, Recovery, Cors, Authentication, last];
    assert RateLimit(l) !in r.handlers;
    forall k | Authorization(k) in r.handlers ensures false {
    }
  }

  lemma LimitedRouteChecks(env: Env, w: World, l: RateLimiter.LimiterConfig, r: Route, c: Context, freshId: Uuid)
    requires ControllerLast(r) && r.handlers == Authenticated + [RateLimit(l), r.handlers[|r.handlers| - 1]]
    requires RunChain(env, w, r.handlers, c, freshId).0.comments != w.comments
    ensures ChecksPassed(env, w, l, r, c)
  {
    var last := r.handlers[|r.handlers| - 1];
    LimitedChainWrites(env, w, l, last.action, c, freshId);
    OnlyLimiter(env, w, l, r, last, c);
  }

  lemma OnlyLimiter(env: Env, w: World, l: RateLimiter.LimiterConfig, r: Route, last: Handler, c: Context)
    requires r.handlers == Authenticated + [RateLimit(l), last] && last.Controller? && Writes(last.action)
    requires Authenticate(env.ts, c).Continue?
    requires RateLimiter.LimitStep(l, w.counters, Authenticate(env.ts, c).ctx).1.Continue?
    ensures ChecksPassed(env, w, l, r, c)
  {
    assert r.handlers == [Logger, Recovery, Recovery, Cors, Authentication, RateLimit(l), last];
    forall k | Authorization(k) in r.handlers ensures false {
    }
  }

  lemma OwnedRouteChecks(env: Env, w: World, l: RateLimiter.LimiterConfig, r: Route, c: Context, freshId: Uuid)
    requires ChainShape(l, r) && ControllerLast(r)
    requires r.handlers != Global + [r.handlers[|r.handlers| - 1]]
    requires r.handlers != Authenticated + [r.handlers[|r.handlers| - 1]]
    requires r.handlers != Authenticated + [RateLimit(l), r.handlers[|r.handlers| - 1]]
    requires RunChain(env, w, r.handlers, c, freshId).0.comments != w.comments
    ensures ChecksPassed(env, w, l, r, c)
  {
    var last := r.handlers[|r.handlers| - 1];
    var k := r.handlers[|Authenticated|].resourceType;
    assert r.handlers == Authenticated + [Authorization(k), Controller(last.action)];
    OwnedChainWrites(env, w, k, last.action, c, freshId);
    OnlyOwnerCheck(env, w, l, r, k, last, c);
  }

  lemma OnlyOwnerCheck(env: Env, w: World, l: RateLimiter.LimiterConfig, r: Route, k: string, last: Handler, c: Context)
    requires r.handlers == Authenticated + [Authorization(k), last] && last.Controller? && Writes(last.action)
    requires Authenticate(env.ts, c).Continue?
    requires Authorize(env.u, Owners(env, w.comments), k, Authenticate(env.ts, c).ctx).Continue?
    ensures ChecksPassed(env, w, l, r, c)
  {
    assert r.handlers == [Logger, Recovery, Recovery, Cors, Authentication, Authorization(k), last];
    assert RateLimit(l) !in r.handlers;
    forall k' | Authorization(k') in r.handlers
      ensures Authorize(env.u, Owners(env, w.comments), k', Authenticate(env.ts, c).ctx).Continue?
    {
      assert k' == k;
    }
  }

  lemma PublicChainWritesNothing(env: Env, w: World, a: Action, c: Context, freshId: Uuid)
    requires a == Swagger || a == Register || a == Login
    ensures RunChain(env, w, Global + [Controller(a)], c, freshId).0 == w
  {
    RunGlobal(env, w, [Controller(a)], c, freshId);
    RunControllerOnly(env, w, a, c, freshId);
  }

  lemma PlainChainWrites(env: Env, w: World, a: Action, c: Context, freshId: Uuid)
    requires RunChain(env, w, Authenticated + [Controller(a)], c, freshId).0.comments != w.comments
    ensures Authenticate(env.ts, c).Continue? && Writes(a)
  {
    RunAuthenticated(env, w, [Controller(a)], c, freshId);
    RunControllerOnly(env, w, a, Authenticate(env.ts, c).ctx, freshId);
  }

  lemma LimitedChainWrites(env: Env, w: World, l: RateLimiter.LimiterConfig, a: Action, c: Context, freshId: Uuid)
    requires RunChain(env, w, Authenticated + [RateLimit(l), Controller(a)], c, freshId).0.comments != w.comments
    ensures Authenticate(env.ts, c).Continue? && Writes(a)
    ensures RateLimiter.LimitStep(l, w.counters, Authenticate(env.ts, c).ctx).1.Continue?
  {
    RunAuthenticated(env, w, [RateLimit(l), Controller(a)], c, freshId);
    RunLimited(env, w, l, a, Authenticate(env.ts, c).ctx, freshId);
  }

  lemma OwnedChainWrites(env: Env, w: World, k: string, a: Action, c: Context, freshId: Uuid)
    requires RunChain(env, w, Authenticated + [Authorization(k), Controller(a)], c, freshId).0.comments != w.comments
    ensures Authenticate(env.ts, c).Continue? && Writes(a)
    ensures Authorize(env.u, Owners(env, w.comments), k, Authenticate(env.ts, c).ctx).Continue?
  {
    RunAuthenticated(env, w, [Authorization(k), Controller(a)], c, freshId);
    RunOwned(env, w, k, a, Authenticate(env.ts, c).ctx, freshId);
  }
}
