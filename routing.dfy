/**
 * The route table the server builds at startup and the dispatch it performs on it.
 * Resources are tried in registration order and the first whose path equals the
 * request path wins; inside a resource the first route whose guard admits the
 * method wins. A request no resource matches goes to the default service.
 */
module Routing {
  import opened Http

  /** Which handler, or which default reply, a request is sent to. */
  datatype Outcome =
    | HealthQuery
    | HealthToggle
    | Logger
    | Version
    | Debug
    | Main
    | NotFound404
    | MethodNotAllowed405
      /** a registered resource with no route for the method: the framework's own reply */
    | UnmatchedMethod

  /** A method guard: every method, one method, or the negation of a guard. */
  datatype Guard = AnyMethod | MethodIs(m: Method) | Not(inner: Guard)

  predicate Admits(g: Guard, m: Method)
  {
    match g
    case AnyMethod => true
    case MethodIs(x) => m == x
    case Not(inner) => !Admits(inner, m)
  }

  datatype Route = Route(guard: Guard, target: Outcome)

  datatype Resource = Resource(path: string, routes: seq<Route>)

  /** The base path is fixed in the code; reading it from the environment is commented out. */
  const BasePath: string := "/dcr"
  const DebugPath: string := "/debug"

  function HealthPath(base: string): string { base + "/health" }
  function VersionPath(base: string): string { base + "/version" }
  function LoggerPath(base: string): string { base + "/logger" }

  /** The routes of each registered resource, in the order they are registered. */
  const HealthRoutes: seq<Route> :=
    [ Route(MethodIs(Get), HealthQuery),
      Route(MethodIs(Put), HealthToggle),
      Route(MethodIs(Post), HealthToggle) ]
  const LoggerRoutes: seq<Route> := [ Route(MethodIs(Put), Logger), Route(MethodIs(Post), Logger) ]
  const VersionRoutes: seq<Route> := [ Route(MethodIs(Get), Version) ]
  const DebugRoutes: seq<Route> := [ Route(AnyMethod, Debug) ]
  const MainRoutes: seq<Route> := [ Route(AnyMethod, Main) ]

  /** The routes of the default service: a 404 page for GET, 405 for every other method. */
  const DefaultRoutes: seq<Route> :=
    [ Route(MethodIs(Get), NotFound404),
      Route(Not(MethodIs(Get)), MethodNotAllowed405) ]

  /** The resources of the application, in the order they are registered. */
  function Table(base: string): seq<Resource>
  {
    [ Resource(HealthPath(base), HealthRoutes),
      Resource(LoggerPath(base), LoggerRoutes),
      Resource(VersionPath(base), VersionRoutes),
      Resource(DebugPath, DebugRoutes),
      Resource(base, MainRoutes) ]
  }

  /** The first route whose guard admits the method, if any. */
  function SelectRoute(routes: seq<Route>, m: Method): Option<Outcome>
  {
    if routes == [] then None
    else if Admits(routes[0].guard, m) then Some(routes[0].target)
    else SelectRoute(routes[1..], m)
  }

  /** Route selection is first-match: it yields a route's target exactly when all earlier guards refuse. */
  lemma {:induction false} SelectRouteFirstMatch(routes: seq<Route>, m: Method)
    ensures SelectRoute(routes, m).None? <==> forall i :: 0 <= i < |routes| ==> !Admits(routes[i].guard, m)
    ensures SelectRoute(routes, m).Some? ==>
      exists i :: 0 <= i < |routes| && Admits(routes[i].guard, m) && routes[i].target == SelectRoute(routes, m).value &&
                  forall j :: 0 <= j < i ==> !Admits(routes[j].guard, m)
  {
    if routes != [] && !Admits(routes[0].guard, m) {
      SelectRouteFirstMatch(routes[1..], m);
      assert forall i :: 1 <= i < |routes| ==> routes[i] == routes[1..][i - 1];
      if SelectRoute(routes, m).Some? {
        var k :| 0 <= k < |routes[1..]| && Admits(routes[1..][k].guard, m) &&
                 routes[1..][k].target == SelectRoute(routes, m).value &&
                 forall j :: 0 <= j < k ==> !Admits(routes[1..][j].guard, m);
        assert Admits(routes[k + 1].guard, m);
      }
    }
  }

  /** The first resource whose path equals the request path, if any. */
  function FindResource(table: seq<Resource>, path: string): Option<Resource>
  {
    if table == [] then None
    else if table[0].path == path then Some(table[0])
    else FindResource(table[1..], path)
  }

  /** Resource lookup is first-match: it yields the first resource carrying the path, and nothing when none does. */
  lemma {:induction false} FindResourceFirstMatch(table: seq<Resource>, path: string)
    ensures FindResource(table, path).None? <==> forall i :: 0 <= i < |table| ==> table[i].path != path
    ensures FindResource(table, path).Some? ==>
      exists i :: 0 <= i < |table| && table[i] == FindResource(table, path).value && table[i].path == path &&
                  forall j :: 0 <= j < i ==> table[j].path != path
  {
    if table != [] && table[0].path != path {
      FindResourceFirstMatch(table[1..], path);
      assert forall i :: 1 <= i < |table| ==> table[i] == table[1..][i - 1];
      if FindResource(table, path).Some? {
        var k :| 0 <= k < |table[1..]| && table[1..][k] == FindResource(table, path).value && table[1..][k].path == path &&
                 forall j :: 0 <= j < k ==> table[1..][j].path != path;
        assert table[k + 1].path == path;
      }
    }
  }

  /** Dispatch of one request against a table, falling back to the default service. */
  function DispatchIn(table: seq<Resource>, path: string, m: Method): Outcome
  {
    match FindResource(table, path)
    case Some(res) => OutcomeOf(SelectRoute(res.routes, m))
    case None => OutcomeOf(SelectRoute(DefaultRoutes, m))
  }

  /** A resource the method finds no route in answers with the framework's own reply. */
  function OutcomeOf(selected: Option<Outcome>): Outcome
  {
    match selected
    case Some(o) => o
    case None => UnmatchedMethod
  }

  /** Dispatch as the running server does it, with the base path fixed by the code: it follows the reference rules. */
  function Dispatch(path: string, m: Method): (r: Outcome)
    ensures r == Reference(BasePath, path, m)
  {
    DispatchMatchesReference(BasePath, path, m);
    DispatchIn(Table(BasePath), path, m)
  }

  /** The five paths that have a resource of their own. */
  function RegisteredPaths(base: string): set<string>
  {
    {HealthPath(base), LoggerPath(base), VersionPath(base), DebugPath, base}
  }

  /**
   * An independent statement of the dispatch rules, bucket by bucket: path before
   * method, and the default bucket answers by method alone.
   */
  function Reference(base: string, path: string, m: Method): Outcome
  {
    if path == HealthPath(base) then
      if m == Get then HealthQuery else if m == Put || m == Post then HealthToggle else UnmatchedMethod
    else if path == LoggerPath(base) then
      if m == Put || m == Post then Logger else UnmatchedMethod
    else if path == VersionPath(base) then
      if m == Get then Version else UnmatchedMethod
    else if path == DebugPath then Debug
    else if path == base then Main
    else if m == Get then NotFound404
    else MethodNotAllowed405
  }

  /** The table, searched first-match, implements the reference rules for every base path. */
  lemma DispatchMatchesReference(base: string, path: string, m: Method)
    ensures DispatchIn(Table(base), path, m) == Reference(base, path, m)
  {
    if path == HealthPath(base) {
      HealthBucket(base, m);
    } else if path == LoggerPath(base) {
      LoggerBucket(base, m);
    } else if path == VersionPath(base) {
      VersionBucket(base, m);
    } else if path == DebugPath {
      ResolvedAt(Table(base), path, m, 3);
    } else if path == base {
      ResolvedAt(Table(base), path, m, 4);
    } else {
      DefaultBucket(base, path, m);
    }
  }

  lemma HealthBucket(base: string, m: Method)
    ensures DispatchIn(Table(base), HealthPath(base), m) == Reference(base, HealthPath(base), m)
  {
    ResolvedAt(Table(base), HealthPath(base), m, 0);
    BucketSelect(m);
  }

  lemma LoggerBucket(base: string, m: Method)
    ensures LoggerPath(base) != HealthPath(base)
    ensures DispatchIn(Table(base), LoggerPath(base), m) == Reference(base, LoggerPath(base), m)
  {
    assert LoggerPath(base)[|base| + 1] != HealthPath(base)[|base| + 1];
    ResolvedAt(Table(base), LoggerPath(base), m, 1);
    BucketSelect(m);
  }

  lemma VersionBucket(base: string, m: Method)
    ensures DispatchIn(Table(base), VersionPath(base), m) == Reference(base, VersionPath(base), m)
  {
    assert |VersionPath(base)| != |HealthPath(base)| && |VersionPath(base)| != |LoggerPath(base)|;
    ResolvedAt(Table(base), VersionPath(base), m, 2);
    BucketSelect(m);
  }

  lemma DefaultBucket(base: string, path: string, m: Method)
    requires path !in RegisteredPaths(base)
    ensures DispatchIn(Table(base), path, m) == Reference(base, path, m)
  {
    var t := Table(base);
    assert path != HealthPath(base) && path != LoggerPath(base) && path != VersionPath(base);
    assert path != DebugPath && path != base;
    assert forall i :: 0 <= i < |t| ==> t[i].path in RegisteredPaths(base);
    ResolvedByDefault(t, path, m);
    BucketSelect(m);
  }

  /** A resource preceded only by resources of other paths is the one that answers. */
  lemma ResolvedAt(table: seq<Resource>, path: string, m: Method, k: nat)
    requires k < |table| && table[k].path == path
    requires forall j :: 0 <= j < k ==> table[j].path != path
    ensures DispatchIn(table, path, m) == OutcomeOf(SelectRoute(table[k].routes, m))
  {
    FindResourceFirstMatch(table, path);
    var r := FindResource(table, path);
    var i :| 0 <= i < |table| && table[i] == r.value && r.value.path == path &&
             forall j :: 0 <= j < i ==> table[j].path != path;
    assert !(i < k) && !(k < i);
  }

  /** A path no resource carries is answered by the default service. */
  lemma ResolvedByDefault(table: seq<Resource>, path: string, m: Method)
    requires forall i :: 0 <= i < |table| ==> table[i].path != path
    ensures DispatchIn(table, path, m) == OutcomeOf(SelectRoute(DefaultRoutes, m))
  {
    FindResourceFirstMatch(table, path);
  }

  /** Route selection inside each bucket. */
  lemma BucketSelect(m: Method)
    ensures SelectRoute(HealthRoutes, m) ==
      if m == Get then Some(HealthQuery) else if m == Put || m == Post then Some(HealthToggle) else None
    ensures SelectRoute(LoggerRoutes, m) == if m == Put || m == Post then Some(Logger) else None
    ensures SelectRoute(VersionRoutes, m) == if m == Get then Some(Version) else None
    ensures SelectRoute(DefaultRoutes, m) == if m == Get then Some(NotFound404) else Some(MethodNotAllowed405)
  {
    var h1, l1 := HealthRoutes[1..], LoggerRoutes[1..];
    assert h1 == [Route(MethodIs(Put), HealthToggle), Route(MethodIs(Post), HealthToggle)];
    assert h1[1..] == [Route(MethodIs(Post), HealthToggle)];
    assert l1 == [Route(MethodIs(Post), Logger)];
    assert m != Get ==> SelectRoute(HealthRoutes, m) == SelectRoute(h1, m);
    assert m != Put ==> SelectRoute(h1, m) == SelectRoute(h1[1..], m);
    assert m != Post ==> SelectRoute(h1[1..], m) == SelectRoute(h1[1..][1..], m) == None;
    assert m != Put ==> SelectRoute(LoggerRoutes, m) == SelectRoute(l1, m);
    assert DefaultRoutes[1..] == [Route(Not(MethodIs(Get)), MethodNotAllowed405)];
  }

  /** The concrete paths collide only when the base path is the debug path itself. */
  lemma PathsDistinctIff(base: string)
    ensures |RegisteredPaths(base)| == 5 <==> base != DebugPath
  {
    var h, l, v := HealthPath(base), LoggerPath(base), VersionPath(base);
    assert |h| == |base| + 7 && |l| == |base| + 7 && |v| == |base| + 8;
    assert h[|base| + 1] == 'h' && l[|base| + 1] == 'l';
    assert h != l;
    if base != DebugPath {
      assert |{h, l, v}| == 3;
      assert |{h, l, v, DebugPath}| == 4;
      assert {h, l, v, DebugPath, base} == {h, l, v, DebugPath} + {base};
    } else {
      assert RegisteredPaths(base) == {h, l, v, DebugPath};
    }
  }

  /** With the base path of the code the five resources have pairwise distinct paths. */
  lemma RegisteredPathsDistinct()
    ensures |RegisteredPaths(BasePath)| == 5
    ensures HealthPath(BasePath) == "/dcr/health"
    ensures LoggerPath(BasePath) == "/dcr/logger"
    ensures VersionPath(BasePath) == "/dcr/version"
  {
    PathsDistinctIff(BasePath);
  }

  lemma HealthPathDispatch(path: string, m: Method)
    requires path == "/dcr/health"
    ensures Dispatch(path, m) == HealthQuery <==> m == Get
    ensures Dispatch(path, m) == HealthToggle <==> m == Put || m == Post
    ensures m != Get && m != Put && m != Post ==> Dispatch(path, m) == UnmatchedMethod
  {
    RegisteredPathsDistinct();
  }

  lemma LoggerPathDispatch(path: string, m: Method)
    requires path == "/dcr/logger"
    ensures Dispatch(path, m) == Logger <==> m == Put || m == Post
    ensures m != Put && m != Post ==> Dispatch(path, m) == UnmatchedMethod
  {
    RegisteredPathsDistinct();
  }

  lemma VersionPathDispatch(path: string, m: Method)
    requires path == "/dcr/version"
    ensures Dispatch(path, m) == Version <==> m == Get
    ensures m != Get ==> Dispatch(path, m) == UnmatchedMethod
  {
    RegisteredPathsDistinct();
  }

  /** The debug and base-path resources take every method. */
  lemma AnyMethodPathDispatch(path: string, m: Method)
    ensures path == "/debug" ==> Dispatch(path, m) == Debug
    ensures path == "/dcr" ==> Dispatch(path, m) == Main
  {
    RegisteredPathsDistinct();
  }

  /** Off the registered paths the answer depends on the method alone: 404 for GET, 405 otherwise. */
  lemma DefaultService(path: string, m: Method)
    requires path !in RegisteredPaths(BasePath)
    ensures Dispatch(path, m) == if m == Get then NotFound404 else MethodNotAllowed405
  {
  }

  /** Path takes priority over method: 404 and 405 come from the default service and from nowhere else. */
  lemma DefaultOutcomesIff(path: string, m: Method)
    ensures Dispatch(path, m) == NotFound404 <==> path !in RegisteredPaths(BasePath) && m == Get
    ensures Dispatch(path, m) == MethodNotAllowed405 <==> path !in RegisteredPaths(BasePath) && m != Get
  {
  }

  /** The toggle is reached by exactly PUT and POST on the health path. */
  lemma ToggleOutcomeIff(path: string, m: Method)
    ensures Dispatch(path, m) == HealthToggle <==> path == "/dcr/health" && (m == Put || m == Post)
  {
    RegisteredPathsDistinct();
  }
}
