/** router/router.go: SetupRouter builds gin's route table one call at a
    time on a mutable engine and its route groups. A group copies the
    middleware of its parent when it is created, and a route is registered
    with the middleware its group holds at that moment followed by the
    route's own handlers. Paths are kept as segment lists ("/photos/:photoID"
    is [Lit("photos"), Var("photoID")]); requests are matched against them
    segment by segment. */
module Router {
  import opened Wrappers
  import opened Strings
  import opened Http
  import opened RateLimiter
  import Auth

  /** A path segment of a route pattern: a literal, a `:name` parameter
      (one non-empty segment) or a `*name` catch-all (the rest of the path). */
  datatype Seg = Lit(text: string) | Var(name: string) | Wild(name: string)

  /** The controller functions the routes end in. */
  datatype Action =
    | Swagger | Register | Login | UpdateUser | DeleteUser
    | CreatePhoto | ListPhotos | UpdatePhoto | DeletePhoto
    | CreateComment | ListComments | CreateReply | ListReplies | UpdateComment | DeleteComment
    | CreateSocialMedia | ListSocialMedia | UpdateSocialMedia | DeleteSocialMedia

  /** A gin.HandlerFunc as registered: a middleware or a controller. */
  datatype Handler =
    | Logger
    | Recovery
    | Cors
    | Authentication
    | RateLimit(limiter: LimiterConfig)
    | Authorization(resourceType: string)
    | Controller(action: Action)

  datatype Route = Route(httpMethod: Method, pattern: seq<Seg>, handlers: seq<Handler>)

  /** MaxRequests and RateWindow (time.Minute, in seconds). */
  const MaxRequests := 10
  const RateWindowSeconds := 60

  /** The engine: the middleware of its root group and the routes registered so far. */
  class Engine {
    var handlers: seq<Handler>
    var routes: seq<Route>

    /** gin.Default(): Logger and Recovery installed, no routes. */
    constructor Default()
      ensures handlers == [Logger, Recovery] && routes == []
    {
      handlers := [Logger, Recovery];
      routes := [];
    }

    method Use(h: Handler)
      modifies this
      ensures handlers == old(handlers) + [h] && routes == old(routes)
    {
      handlers := handlers + [h];
    }

    /** r.GET / r.POST / ...: register on the root group. */
    method Handle(m: Method, path: seq<Seg>, hs: seq<Handler>)
      modifies this
      ensures routes == old(routes) + [Route(m, path, old(handlers) + hs)]
      ensures handlers == old(handlers)
    {
      routes := routes + [Route(m, path, handlers + hs)];
    }

    /** r.Group(path): a group holding a copy of the root's middleware. */
    method Group(path: seq<Seg>) returns (g: RouterGroup)
      ensures fresh(g) && g.engine == this && g.basePath == path && g.handlers == handlers
    {
      g := new RouterGroup(this, path, handlers);
    }
  }

  class RouterGroup {
    var engine: Engine
    var basePath: seq<Seg>
    var handlers: seq<Handler>

    constructor (e: Engine, base: seq<Seg>, hs: seq<Handler>)
      ensures engine == e && basePath == base && handlers == hs
    {
      engine := e;
      basePath := base;
      handlers := hs;
    }

    /** group.Use: later routes of this group (and groups made from it
        afterwards) get `h`; routes already registered do not. */
    method Use(h: Handler)
      modifies this
      ensures handlers == old(handlers) + [h]
      ensures basePath == old(basePath) && engine == old(engine)
    {
      handlers := handlers + [h];
    }

    /** group.GET / group.POST / ...: the route's path is the group's base
        path joined with `path`, its chain the group's middleware followed by
        `hs`. */
    method Handle(m: Method, path: seq<Seg>, hs: seq<Handler>)
      modifies engine
      ensures engine.routes == old(engine.routes) + [Route(m, basePath + path, handlers + hs)]
      ensures engine.handlers == old(engine.handlers)
    {
      engine.routes := engine.routes + [Route(m, basePath + path, handlers + hs)];
    }

    method Group(path: seq<Seg>) returns (g: RouterGroup)
      ensures fresh(g) && g.engine == engine && g.basePath == basePath + path && g.handlers == handlers
    {
      g := new RouterGroup(engine, basePath + path, handlers);
    }
  }

  /** The middleware every route gets: gin.Default's Logger and Recovery,
      then the second Recovery and CORS that SetupRouter adds. */
  const Global: seq<Handler> := [Logger, Recovery, Recovery, Cors]

  /** The same followed by Authentication: the chain prefix of authRouter. */
  const Authenticated: seq<Handler> := Global + [Authentication]

  /** The route table SetupRouter builds, in registration order, for the
      rate limiter that RateLimiterConfig(MaxRequests, RateWindow) returns. */
  function Routes(l: LimiterConfig): (rs: seq<Route>)
    ensures |rs| == 19
  {
    PublicRoutes() + UserRoutes() + PhotoRoutes(l) + CommentRoutes(l) + SocialMediaRoutes()
  }

  function PublicRoutes(): (rs: seq<Route>)
    ensures |rs| == 3
  {
    [ Route(GET, [Lit("swagger"), Wild("any")], Global + [Controller(Swagger)]),
      Route(POST, [Lit("auth"), Lit("register")], Global + [Controller(Register)]),
      Route(POST, [Lit("auth"), Lit("login")], Global + [Controller(Login)]) ]
  }

  function UserRoutes(): (rs: seq<Route>)
    ensures |rs| == 2
  {
    [ Route(PUT, [Lit("users")], Authenticated + [Controller(UpdateUser)]),
      Route(DELETE, [Lit("users")], Authenticated + [Controller(DeleteUser)]) ]
  }

  function PhotoRoutes(l: LimiterConfig): (rs: seq<Route>)
    ensures |rs| == 4
  {
    [ Route(POST, [Lit("photos")], Authenticated + [RateLimit(l), Controller(CreatePhoto)]),
      Route(GET, [Lit("photos")], Authenticated + [Controller(ListPhotos)]),
      Route(PUT, [Lit("photos"), Var("photoID")], Authenticated + [Authorization("photo"), Controller(UpdatePhoto)]),
      Route(DELETE, [Lit("photos"), Var("photoID")], Authenticated + [Authorization("photo"), Controller(DeletePhoto)]) ]
  }

  function CommentRoutes(l: LimiterConfig): (rs: seq<Route>)
    ensures |rs| == 6
  {
    [ Route(POST, [Lit("comments")], Authenticated + [RateLimit(l), Controller(CreateComment)]),
      Route(GET, [Lit("comments")], Authenticated + [Controller(ListComments)]),
      Route(POST, [Lit("comments"), Lit("reply"), Var("parentCommentID")], Authenticated + [RateLimit(l), Controller(CreateReply)]),
      Route(GET, [Lit("comments"), Var("parentCommentID"), Lit("replies")], Authenticated + [Controller(ListReplies)]),
      Route(PUT, [Lit("comments"), Var("commentID")], Authenticated + [Authorization("comment"), Controller(UpdateComment)]),
      Route(DELETE, [Lit("comments"), Var("commentID")], Authenticated + [Authorization("comment"), Controller(DeleteComment)]) ]
  }

  function SocialMediaRoutes(): (rs: seq<Route>)
    ensures |rs| == 4
  {
    [ Route(POST, [Lit("socialmedias")], Authenticated + [Controller(CreateSocialMedia)]),
      Route(GET, [Lit("socialmedias")], Authenticated + [Controller(ListSocialMedia)]),
      Route(PUT, [Lit("socialmedias"), Var("socialmediaID")], Authenticated + [Authorization("socialmedia"), Controller(UpdateSocialMedia)]),
      Route(DELETE, [Lit("socialmedias"), Var("socialmediaID")], Authenticated + [Authorization("socialmedia"), Controller(DeleteSocialMedia)]) ]
  }

  /** SetupRouter, call for call. `redis` is what database.GetRedis returns
      while the routes are built; every RateLimiterConfig call sees it. */
  method SetupRouter(redis: CounterStore?) returns (r: Engine)
    ensures fresh(r)
    ensures r.routes == Routes(RateLimiterConfig(redis, MaxRequests, RateWindowSeconds))
  {
    r := new Engine.Default();
    r.Use(Recovery);
    r.Use(Cors);
    assert r.handlers == Global;
    r.Handle(GET, [Lit("swagger"), Wild("any")], [Controller(Swagger)]);
    r.Handle(POST, [Lit("auth"), Lit("register")], [Controller(Register)]);
    r.Handle(POST, [Lit("auth"), Lit("login")], [Controller(Login)]);
    assert r.routes == PublicRoutes();

    var authRouter := r.Group([]);
    authRouter.Use(Authentication);
    assert authRouter.handlers == Authenticated;
    RegisterUsers(authRouter);
    var limiter := RateLimiterConfig(redis, MaxRequests, RateWindowSeconds);
    RegisterPhotos(authRouter, limiter);
    RegisterComments(authRouter, limiter);
    RegisterSocialMedia(authRouter);
  }

  method RegisterUsers(authRouter: RouterGroup)
    requires authRouter.basePath == [] && authRouter.handlers == Authenticated
    modifies authRouter.engine
    ensures authRouter.engine.routes == old(authRouter.engine.routes) + UserRoutes()
  {
    ghost var before := authRouter.engine.routes;
    assert [] + [Lit("users")] == [Lit("users")];
    authRouter.Handle(PUT, [Lit("users")], [Controller(UpdateUser)]);
    authRouter.Handle(DELETE, [Lit("users")], [Controller(DeleteUser)]);
    assert authRouter.engine.routes == before + UserRoutes();
  }

  method RegisterPhotos(authRouter: RouterGroup, limiter: LimiterConfig)
    requires authRouter.basePath == [] && authRouter.handlers == Authenticated
    modifies authRouter.engine
    ensures authRouter.engine.routes == old(authRouter.engine.routes) + PhotoRoutes(limiter)
  {
    ghost var before := authRouter.engine.routes;
    var photos := [Lit("photos")];
    assert [] + photos == photos;
    authRouter.Handle(POST, photos, [RateLimit(limiter), Controller(CreatePhoto)]);
    authRouter.Handle(GET, photos, [Controller(ListPhotos)]);
    var photoAuthRouter := authRouter.Group(photos);
    photoAuthRouter.Use(Authorization("photo"));
    ghost var owned := photoAuthRouter.handlers;
    assert owned + [Controller(UpdatePhoto)] == Authenticated + [Authorization("photo"), Controller(UpdatePhoto)];
    assert owned + [Controller(DeletePhoto)] == Authenticated + [Authorization("photo"), Controller(DeletePhoto)];
    assert photos + [Var("photoID")] == [Lit("photos"), Var("photoID")];
    photoAuthRouter.Handle(PUT, [Var("photoID")], [Controller(UpdatePhoto)]);
    photoAuthRouter.Handle(DELETE, [Var("photoID")], [Controller(DeletePhoto)]);
    assert authRouter.engine.routes == before + PhotoRoutes(limiter);
  }

  method RegisterComments(authRouter: RouterGroup, limiter: LimiterConfig)
    requires authRouter.basePath == [] && authRouter.handlers == Authenticated
    modifies authRouter.engine
    ensures authRouter.engine.routes == old(authRouter.engine.routes) + CommentRoutes(limiter)
  {
    ghost var before := authRouter.engine.routes;
    var comments := [Lit("comments")];
    var reply := [Lit("comments"), Lit("reply"), Var("parentCommentID")];
    var replies := [Lit("comments"), Var("parentCommentID"), Lit("replies")];
    assert [] + comments == comments && [] + reply == reply && [] + replies == replies;
    authRouter.Handle(POST, comments, [RateLimit(limiter), Controller(CreateComment)]);
    authRouter.Handle(GET, comments, [Controller(ListComments)]);
    authRouter.Handle(POST, reply, [RateLimit(limiter), Controller(CreateReply)]);
    authRouter.Handle(GET, replies, [Controller(ListReplies)]);
    var commentAuthRouter := authRouter.Group(comments);
    commentAuthRouter.Use(Authorization("comment"));
    ghost var owned := commentAuthRouter.handlers;
    assert owned + [Controller(UpdateComment)] == Authenticated + [Authorization("comment"), Controller(UpdateComment)];
    assert owned + [Controller(DeleteComment)] == Authenticated + [Authorization("comment"), Controller(DeleteComment)];
    assert comments + [Var("commentID")] == [Lit("comments"), Var("commentID")];
    commentAuthRouter.Handle(PUT, [Var("commentID")], [Controller(UpdateComment)]);
    commentAuthRouter.Handle(DELETE, [Var("commentID")], [Controller(DeleteComment)]);
    assert authRouter.engine.routes == before + CommentRoutes(limiter);
  }

  method RegisterSocialMedia(authRouter: RouterGroup)
    requires authRouter.basePath == [] && authRouter.handlers == Authenticated
    modifies authRouter.engine
    ensures authRouter.engine.routes == old(authRouter.engine.routes) + SocialMediaRoutes()
  {
    ghost var before := authRouter.engine.routes;
    var socialmedias := [Lit("socialmedias")];
    assert [] + socialmedias == socialmedias;
    authRouter.Handle(POST, socialmedias, [Controller(CreateSocialMedia)]);
    authRouter.Handle(GET, socialmedias, [Controller(ListSocialMedia)]);
    var smAuthRouter := authRouter.Group(socialmedias);
    smAuthRouter.Use(Authorization("socialmedia"));
    ghost var owned := smAuthRouter.handlers;
    assert owned + [Controller(UpdateSocialMedia)] == Authenticated + [Authorization("socialmedia"), Controller(UpdateSocialMedia)];
    assert owned + [Controller(DeleteSocialMedia)] == Authenticated + [Authorization("socialmedia"), Controller(DeleteSocialMedia)];
    assert socialmedias + [Var("socialmediaID")] == [Lit("socialmedias"), Var("socialmediaID")];
    smAuthRouter.Handle(PUT, [Var("socialmediaID")], [Controller(UpdateSocialMedia)]);
    smAuthRouter.Handle(DELETE, [Var("socialmediaID")], [Controller(DeleteSocialMedia)]);
    assert authRouter.engine.routes == before + SocialMediaRoutes();
  }

  // ------------------------------------------------------------- matching

  /** The segments of a request's URL path: "/comments/abc" has segments
      ["comments", "abc"]; a path that does not start with '/' has none. */
  function PathSegments(path: string): (r: Option<seq<string>>)
    ensures r.Some? <==> |path| > 0 && path[0] == '/'
    ensures r.Some? ==> Join(r.value, '/') == path[1..]
  {
    if |path| > 0 && path[0] == '/' then Some(Split(path[1..], '/')) else None
  }

  /** Whether `segs` fits the pattern, and the parameters it binds: a literal
      matches itself, a parameter any non-empty segment, and a catch-all
      (which gin accepts only as the last segment) the rest of the path with
      its leading '/'. */
  function Match(pat: seq<Seg>, segs: seq<string>): (r: Option<map<string, string>>)
    ensures r.Some? ==> (|pat| == 0 <==> |segs| == 0)
    ensures r.Some? && |pat| > 0 && |segs| > 0 && pat[0].Var? ==>
      segs[0] != "" && pat[0].name in r.value && r.value[pat[0].name] == segs[0]
    decreases |pat|
  {
    if |pat| == 0 then (if |segs| == 0 then Some(map[]) else None)
    else if |segs| == 0 then None
    else match pat[0]
      case Wild(name) => if |pat| == 1 then Some(map[name := "/" + Join(segs, '/')]) else None
      case Lit(text) => if segs[0] == text then Match(pat[1..], segs[1..]) else None
      case Var(name) =>
        if segs[0] == "" then None
        else match Match(pat[1..], segs[1..])
          case None => None
          case Some(m) => Some(m[name := segs[0]])
  }

  /** The route a request is dispatched to, with the parameters it binds:
      the first route of the method whose pattern the path fits. */
  function Lookup(routes: seq<Route>, m: Method, path: string): (r: Option<(Route, map<string, string>)>)
    ensures r.Some? ==> r.value.0 in routes && r.value.0.httpMethod == m
    ensures r.Some? ==> PathSegments(path).Some? && Match(r.value.0.pattern, PathSegments(path).value) == Some(r.value.1)
  {
    match PathSegments(path)
    case None => None
    case Some(segs) => FirstMatch(routes, m, segs)
  }

  function FirstMatch(routes: seq<Route>, m: Method, segs: seq<string>): (r: Option<(Route, map<string, string>)>)
    ensures r.Some? ==> r.value.0 in routes && r.value.0.httpMethod == m && Match(r.value.0.pattern, segs) == Some(r.value.1)
    ensures r.None? ==> forall q :: q in routes && q.httpMethod == m ==> Match(q.pattern, segs).None?
    decreases |routes|
  {
    if |routes| == 0 then None
    else if routes[0].httpMethod == m && Match(routes[0].pattern, segs).Some? then
      Some((routes[0], Match(routes[0].pattern, segs).value))
    else FirstMatch(routes[1..], m, segs)
  }

  /** Two patterns no path fits both: they differ in a literal at some
      position before any catch-all, or one ends where the other goes on. */
  predicate Disjoint(p: seq<Seg>, q: seq<Seg>)
    decreases |p|
  {
    if |p| == 0 && |q| == 0 then false
    else if |p| == 0 || |q| == 0 then true
    else if p[0].Wild? || q[0].Wild? then false
    else if p[0].Lit? && q[0].Lit? && p[0].text != q[0].text then true
    else Disjoint(p[1..], q[1..])
  }

  lemma {:induction false} DisjointExclusive(p: seq<Seg>, q: seq<Seg>, segs: seq<string>)
    requires Disjoint(p, q)
    ensures Match(p, segs).None? || Match(q, segs).None?
    decreases |p|
  {
    if |p| > 0 && |q| > 0 && |segs| > 0 && !(p[0].Lit? && q[0].Lit? && p[0].text != q[0].text) {
      DisjointExclusive(p[1..], q[1..], segs[1..]);
    }
  }

  /** A route's method and pattern: all that dispatch looks at. */
  type Shape = (Method, seq<Seg>)

  function Shapes(rs: seq<Route>): (ss: seq<Shape>)
    ensures |ss| == |rs| && forall i :: 0 <= i < |rs| ==> ss[i] == (rs[i].httpMethod, rs[i].pattern)
    decreases |rs|
  {
    if |rs| == 0 then [] else [(rs[0].httpMethod, rs[0].pattern)] + Shapes(rs[1..])
  }

  /** The method and pattern of each route SetupRouter registers, in order. */
  const RouteShapes: seq<Shape> := [
    (GET, [Lit("swagger"), Wild("any")]),
    (POST, [Lit("auth"), Lit("register")]),
    (POST, [Lit("auth"), Lit("login")]),
    (PUT, [Lit("users")]),
    (DELETE, [Lit("users")]),
    (POST, [Lit("photos")]),
    (GET, [Lit("photos")]),
    (PUT, [Lit("photos"), Var("photoID")]),
    (DELETE, [Lit("photos"), Var("photoID")]),
    (POST, [Lit("comments")]),
    (GET, [Lit("comments")]),
    (POST, [Lit("comments"), Lit("reply"), Var("parentCommentID")]),
    (GET, [Lit("comments"), Var("parentCommentID"), Lit("replies")]),
    (PUT, [Lit("comments"), Var("commentID")]),
    (DELETE, [Lit("comments"), Var("commentID")]),
    (POST, [Lit("socialmedias")]),
    (GET, [Lit("socialmedias")]),
    (PUT, [Lit("socialmedias"), Var("socialmediaID")]),
    (DELETE, [Lit("socialmedias"), Var("socialmediaID")])]

  /** No two of those shapes with the same method overlap. */
  lemma ShapesUnambiguous()
    ensures forall i, j :: 0 <= i < j < |RouteShapes| && RouteShapes[i].0 == RouteShapes[j].0 ==>
      Disjoint(RouteShapes[i].1, RouteShapes[j].1)
  {
  }

  /** No two routes of the same method overlap, so the first match is the
      only match and registration order does not matter. */
  lemma RoutesUnambiguous(l: LimiterConfig)
    ensures forall i, j :: 0 <= i < j < |Routes(l)| && Routes(l)[i].httpMethod == Routes(l)[j].httpMethod ==>
      Disjoint(Routes(l)[i].pattern, Routes(l)[j].pattern)
  {
    var rs := Routes(l);
    var ss := Shapes(rs);
    assert ss == RouteShapes;
    ShapesUnambiguous();
    forall i, j | 0 <= i < j < |rs| && rs[i].httpMethod == rs[j].httpMethod
      ensures Disjoint(rs[i].pattern, rs[j].pattern)
    {
      assert ss[i] == (rs[i].httpMethod, rs[i].pattern) && ss[j] == (rs[j].httpMethod, rs[j].pattern);
    }
  }

  // ------------------------------------------------------- route policies

  /** The route of a request is the unique route of its method that its path
      fits: any other route of the same method does not fit it. */
  lemma LookupIsTheOnlyMatch(l: LimiterConfig, m: Method, path: string, q: Route)
    requires Lookup(Routes(l), m, path).Some?
    requires q in Routes(l) && q.httpMethod == m && q != Lookup(Routes(l), m, path).value.0
    ensures Match(q.pattern, PathSegments(path).value).None?
  {
    var rs := Routes(l);
    var r := Lookup(rs, m, path).value.0;
    var i :| 0 <= i < |rs| && rs[i] == r;
    var j :| 0 <= j < |rs| && rs[j] == q;
    RoutesUnambiguous(l);
    if i < j {
      DisjointExclusive(r.pattern, q.pattern, PathSegments(path).value);
    } else {
      DisjointExclusive(q.pattern, r.pattern, PathSegments(path).value);
    }
  }

  /** Authentication runs on a route exactly when the route is not the
      swagger, register or login route, and then right after the global
      middleware that every chain starts with. */
  predicate AuthPolicy(r: Route) {
    && |r.handlers| > |Global| && r.handlers[..|Global|] == Global && |r.pattern| > 0
    && (Authentication in r.handlers <==> r.pattern[0] != Lit("swagger") && r.pattern[0] != Lit("auth"))
    && (Authentication in r.handlers ==> |r.handlers| > |Authenticated| && r.handlers[..|Authenticated|] == Authenticated)
    && (Authentication !in r.handlers ==>
          r.handlers[|r.handlers| - 1] in [Controller(Swagger), Controller(Register), Controller(Login)])
  }

  /** Exactly the three creating POST routes carry a rate limiter, the one
      built in SetupRouter, right after Authentication and right before
      their controller. */
  predicate LimitPolicy(l: LimiterConfig, r: Route) {
    && (forall h :: h in r.handlers && h.RateLimit? ==> h == RateLimit(l))
    && (RateLimit(l) in r.handlers <==>
         r.httpMethod == POST &&
         (r.pattern == [Lit("photos")] || r.pattern == [Lit("comments")] ||
          r.pattern == [Lit("comments"), Lit("reply"), Var("parentCommentID")]))
    && (RateLimit(l) in r.handlers ==>
         |r.handlers| > 0 && r.handlers == Authenticated + [RateLimit(l), r.handlers[|r.handlers| - 1]])
  }

  /** Exactly the PUT and DELETE routes on one photo, comment or social
      media entry run Authorization, right after Authentication and right
      before their controller, with a known resource type; the parameter it
      reads, the resource type followed by "ID", is the one the route's
      second segment binds. */
  predicate OwnerPolicy(r: Route) {
    && ((exists h :: h in r.handlers && h.Authorization?) <==>
         (r.httpMethod == PUT || r.httpMethod == DELETE) && |r.pattern| == 2)
    && (forall h :: h in r.handlers && h.Authorization? ==>
         && |r.handlers| > 0 && r.handlers == Authenticated + [h, r.handlers[|r.handlers| - 1]]
         && |r.pattern| == 2 && r.pattern[1].Var?
         && Auth.KindOf(h.resourceType).Some?
         && r.pattern[1].name == Auth.ResourceParam(h.resourceType))
  }

  /** The chain ends in its only controller. */
  predicate ControllerLast(r: Route) {
    && |r.handlers| > 0 && r.handlers[|r.handlers| - 1].Controller?
    && (forall i :: 0 <= i < |r.handlers| - 1 ==> !r.handlers[i].Controller?)
  }

  /** The chain is the global middleware, then the controller, with
      Authentication in between on every non-public route, followed there
      by at most one of the rate limiter and Authorization. */
  predicate ChainShape(l: LimiterConfig, r: Route) {
    && |r.handlers| > 0
    && var last := r.handlers[|r.handlers| - 1];
       || r.handlers == Global + [last]
       || r.handlers == Authenticated + [last]
       || r.handlers == Authenticated + [RateLimit(l), last]
       || (|r.handlers| == |Authenticated| + 2 && r.handlers[|Authenticated|].Authorization? &&
           r.handlers == Authenticated + [r.handlers[|Authenticated|], last])
  }

  /** The parameter names the route table binds. */
  const KnownParams: set<string> := {"any", "photoID", "parentCommentID", "commentID", "socialmediaID"}

  predicate Policies(l: LimiterConfig, r: Route) {
    AuthPolicy(r) && LimitPolicy(l, r) && OwnerPolicy(r) && ControllerLast(r) && ChainShape(l, r) && ParamNames(r.pattern) <= KnownParams
  }

  lemma PublicPolicies(l: LimiterConfig)
    ensures forall r :: r in PublicRoutes() ==> Policies(l, r)
  {
    var rs := PublicRoutes();
    PublicShape(l, rs[0], Swagger);
    PublicShape(l, rs[1], Register);
    PublicShape(l, rs[2], Login);
  }

  /** A route outside authRouter. */
  lemma PublicShape(l: LimiterConfig, r: Route, a: Action)
    requires r.handlers == Global + [Controller(a)]
    requires a == Swagger || a == Register || a == Login
    requires |r.pattern| > 0 && (r.pattern[0] == Lit("swagger") || r.pattern[0] == Lit("auth"))
    requires |r.pattern| != 2 || r.httpMethod == GET || r.httpMethod == POST
    requires ParamNames(r.pattern) <= KnownParams
    ensures Policies(l, r)
  {
    assert forall h :: h in r.handlers <==> h in Global || h == Controller(a);
  }

  /** An authenticated route without further middleware. */
  lemma PlainShape(l: LimiterConfig, r: Route, a: Action)
    requires r.handlers == Authenticated + [Controller(a)]
    requires |r.pattern| > 0 && r.pattern[0] != Lit("swagger") && r.pattern[0] != Lit("auth")
    requires r.httpMethod == GET || r.httpMethod == POST || |r.pattern| != 2
    requires r.httpMethod != POST ||
      (r.pattern != [Lit("photos")] && r.pattern != [Lit("comments")] &&
       r.pattern != [Lit("comments"), Lit("reply"), Var("parentCommentID")])
    requires ParamNames(r.pattern) <= KnownParams
    ensures Policies(l, r)
  {
    assert forall h :: h in r.handlers <==> h in Authenticated || h == Controller(a);
  }

  /** An authenticated, rate-limited route. */
  lemma LimitedShape(l: LimiterConfig, r: Route, a: Action)
    requires r.handlers == Authenticated + [RateLimit(l), Controller(a)]
    requires r.httpMethod == POST
    requires r.pattern == [Lit("photos")] || r.pattern == [Lit("comments")] ||
      r.pattern == [Lit("comments"), Lit("reply"), Var("parentCommentID")]
    requires ParamNames(r.pattern) <= KnownParams
    ensures Policies(l, r)
  {
    assert forall h :: h in r.handlers <==> h in Authenticated || h == RateLimit(l) || h == Controller(a);
    assert r.handlers[|r.handlers| - 1] == Controller(a);
  }

  /** An authenticated route that checks ownership of its second segment. */
  lemma OwnedShape(l: LimiterConfig, r: Route, k: string, a: Action)
    requires r.handlers == Authenticated + [Authorization(k), Controller(a)]
    requires r.httpMethod == PUT || r.httpMethod == DELETE
    requires |r.pattern| == 2 && r.pattern[0] != Lit("swagger") && r.pattern[0] != Lit("auth")
    requires r.pattern[1].Var? && Auth.KindOf(k).Some?
    requires r.pattern[1].name == Auth.ResourceParam(k)
    requires ParamNames(r.pattern) <= KnownParams
    ensures Policies(l, r)
  {
    assert forall h :: h in r.handlers <==> h in Authenticated || h == Authorization(k) || h == Controller(a);
    assert r.handlers[|r.handlers| - 1] == Controller(a);
    assert Authorization(k) in r.handlers;
    assert forall h :: h in r.handlers && h.Authorization? ==> h == Authorization(k);
    assert OwnerPolicy(r);
  }

  lemma UserPolicies(l: LimiterConfig)
    ensures forall r :: r in UserRoutes() ==> Policies(l, r)
  {
    var rs := UserRoutes();
    PlainShape(l, rs[0], UpdateUser);
    PlainShape(l, rs[1], DeleteUser);
  }

  lemma PhotoPolicies(l: LimiterConfig)
    ensures forall r :: r in PhotoRoutes(l) ==> Policies(l, r)
  {
    var rs := PhotoRoutes(l);
    LimitedShape(l, rs[0], CreatePhoto);
    PlainShape(l, rs[1], ListPhotos);
    OwnedShape(l, rs[2], "photo", UpdatePhoto);
    OwnedShape(l, rs[3], "photo", DeletePhoto);
  }

  lemma CommentPolicies(l: LimiterConfig)
    ensures forall r :: r in CommentRoutes(l) ==> Policies(l, r)
  {
    var rs := CommentRoutes(l);
    forall r | r in rs ensures Policies(l, r) {
      var i :| 0 <= i < |rs| && rs[i] == r;
      CommentPolicy(l, i);
    }
  }

  lemma CommentPolicy(l: LimiterConfig, i: nat)
    requires i < |CommentRoutes(l)|
    ensures Policies(l, CommentRoutes(l)[i])
  {
    var rs := CommentRoutes(l);
    match i
    case 0 => LimitedShape(l, rs[0], CreateComment);
    case 1 => PlainShape(l, rs[1], ListComments);
    case 2 => LimitedShape(l, rs[2], CreateReply);
    case 3 => PlainShape(l, rs[3], ListReplies);
    case 4 => OwnedShape(l, rs[4], "comment", UpdateComment);
    case 5 => OwnedShape(l, rs[5], "comment", DeleteComment);
  }

  lemma SocialMediaPolicies(l: LimiterConfig)
    ensures forall r :: r in SocialMediaRoutes() ==> Policies(l, r)
  {
    var rs := SocialMediaRoutes();
    PlainShape(l, rs[0], CreateSocialMedia);
    PlainShape(l, rs[1], ListSocialMedia);
    OwnedShape(l, rs[2], "socialmedia", UpdateSocialMedia);
    OwnedShape(l, rs[3], "socialmedia", DeleteSocialMedia);
  }

  /** Every route SetupRouter registers obeys the policies above. */
  lemma RoutePolicies(l: LimiterConfig)
    ensures forall r :: r in Routes(l) ==> Policies(l, r)
  {
    PublicPolicies(l);
    UserPolicies(l);
    PhotoPolicies(l);
    CommentPolicies(l);
    SocialMediaPolicies(l);
    forall r | r in Routes(l)
      ensures r in PublicRoutes() || r in UserRoutes() || r in PhotoRoutes(l) || r in CommentRoutes(l) || r in SocialMediaRoutes()
    {
    }
  }

  /** The limiter SetupRouter installs: ten requests per sixty seconds when
      Redis is connected, and a pass-through when it is not. */
  lemma InstalledLimiter(redis: CounterStore?)
    ensures redis != null ==> RateLimiterConfig(redis, MaxRequests, RateWindowSeconds) == Limited(10, 60)
    ensures redis == null ==> RateLimiterConfig(redis, MaxRequests, RateWindowSeconds) == PassThrough
  {
  }

  // ---------------------------------------------------- parameter names

  /** The names a pattern binds: its parameters and its catch-all. */
  function ParamNames(pat: seq<Seg>): set<string> {
    if |pat| == 0 then {}
    else (if pat[0].Lit? then {} else {pat[0].name}) + ParamNames(pat[1..])
  }

  /** A match binds exactly the pattern's parameter names, so c.Param
      answers "" for any other name. */
  lemma {:induction false} MatchBindsExactlyParams(pat: seq<Seg>, segs: seq<string>)
    requires Match(pat, segs).Some?
    ensures Match(pat, segs).value.Keys == ParamNames(pat)
    decreases |pat|
  {
    if |pat| > 0 && !pat[0].Wild? {
      MatchBindsExactlyParams(pat[1..], segs[1..]);
    }
  }

  /** On every route a request can reach, the name "socialMediaID" is
      unbound, so reading it yields "": the social media routes bind
      "socialmediaID", the name Authorization reads. */
  lemma SocialMediaIdUnbound(l: LimiterConfig, m: Method, path: string)
    requires Lookup(Routes(l), m, path).Some?
    ensures "socialMediaID" !in Lookup(Routes(l), m, path).value.1
  {
    var res := Lookup(Routes(l), m, path).value;
    MatchBindsExactlyParams(res.0.pattern, PathSegments(path).value);
    RouteParamsKnown(l, res.0);
  }

  /** The parameter names of every route of the table are known ones. */
  lemma RouteParamsKnown(l: LimiterConfig, r: Route)
    requires r in Routes(l)
    ensures ParamNames(r.pattern) <= KnownParams
  {
    RoutePolicies(l);
    assert Policies(l, r);
  }
}
