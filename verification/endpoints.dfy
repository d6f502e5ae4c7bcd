/** The REST resources the client requests, and the URL it builds for each one. */
module Endpoints {
  import opened Wrappers

  /** One GET request the client can issue. Names are carried verbatim. */
  datatype Endpoint =
    | AllUsers
    | OneUser(username: string)
    | AllTrails
    | AllLocationPoints
    | OneTrailPoints(trailName: string)

  const UsersPath := "/users"
  const UserPrefix := "/users/"
  const TrailsPath := "/trails"
  const LocationPointsPath := "/locationpoints"
  /** Note the upper-case `L`: the per-trail resource is spelled differently from the collection. */
  const TrailPointsPrefix := "/Locationpoints/"

  /** What the client appends to the base URL; a name is inserted with no escaping. */
  function Path(e: Endpoint): (p: string)
    ensures |p| > 1 && p[0] == '/'
    ensures e.OneUser? ==> p == UserPrefix + e.username
    ensures e.OneTrailPoints? ==> p == TrailPointsPrefix + e.trailName
  {
    match e
    case AllUsers => UsersPath
    case OneUser(name) => UserPrefix + name
    case AllTrails => TrailsPath
    case AllLocationPoints => LocationPointsPath
    case OneTrailPoints(name) => TrailPointsPrefix + name
  }

  /** The full request URL: the base URL, untouched, followed by the resource path. */
  function RequestUrl(base: string, e: Endpoint): (u: string)
    ensures base <= u && |u| > |base|
  {
    base + Path(e)
  }

  /** Reads back which resource a URL under `base` requests; the inverse of `RequestUrl`.
      A reference definition: the client itself never parses URLs. */
  function Route(base: string, u: string): (r: Option<Endpoint>)
    ensures r.Some? ==> base <= u && |u| > |base|
  {
    if |u| < |base| || u[..|base|] != base then None
    else
      var rest := u[|base|..];
      if rest == UsersPath then Some(AllUsers)
      else if rest == TrailsPath then Some(AllTrails)
      else if rest == LocationPointsPath then Some(AllLocationPoints)
      else if |UserPrefix| <= |rest| && rest[..|UserPrefix|] == UserPrefix then
        Some(OneUser(rest[|UserPrefix|..]))
      else if |TrailPointsPrefix| <= |rest| && rest[..|TrailPointsPrefix|] == TrailPointsPrefix then
        Some(OneTrailPoints(rest[|TrailPointsPrefix|..]))
      else None
  }

  /** Every URL the client builds routes back to the resource it was built for,
      with any name recovered character for character. */
  lemma RouteRequestUrl(base: string, e: Endpoint)
    ensures Route(base, RequestUrl(base, e)) == Some(e)
  {
    var u := RequestUrl(base, e);
    assert u[..|base|] == base;
    var rest := u[|base|..];
    assert rest == Path(e);
    match e
    case OneUser(name) =>
      assert rest == UserPrefix + name;
      assert rest[1] == 'u' && |rest| >= 7;
      assert rest != TrailsPath && rest != LocationPointsPath && rest != UsersPath;
      assert rest[..|UserPrefix|] == UserPrefix;
      assert rest[|UserPrefix|..] == name;
    case OneTrailPoints(name) =>
      assert rest == TrailPointsPrefix + name;
      assert rest[1] == 'L' && |rest| >= 16;
      assert rest != TrailsPath && rest != LocationPointsPath && rest != UsersPath;
      assert rest[..|UserPrefix|] != UserPrefix;
      assert rest[..|TrailPointsPrefix|] == TrailPointsPrefix;
      assert rest[|TrailPointsPrefix|..] == name;
    case _ =>
  }

  /** `Route` accepts only URLs the client builds. */
  lemma RouteOnlyRequestUrls(base: string, u: string, e: Endpoint)
    requires Route(base, u) == Some(e)
    ensures u == RequestUrl(base, e)
  {
    var rest := u[|base|..];
    assert u == u[..|base|] + rest;
    if e.OneUser? {
      assert rest == rest[..|UserPrefix|] + rest[|UserPrefix|..];
    } else if e.OneTrailPoints? {
      assert rest == rest[..|TrailPointsPrefix|] + rest[|TrailPointsPrefix|..];
    }
  }

  /** Two requests from one client go to the same URL exactly when they are the same request. */
  lemma RequestUrlInjective(base: string, e1: Endpoint, e2: Endpoint)
    ensures RequestUrl(base, e1) == RequestUrl(base, e2) <==> e1 == e2
  {
    RouteRequestUrl(base, e1);
    RouteRequestUrl(base, e2);
  }

  /** The collection URL `/locationpoints` is never the URL of one trail's points, whatever the name. */
  lemma LocationPointPathsDiffer(base: string, trailName: string)
    ensures RequestUrl(base, AllLocationPoints) != RequestUrl(base, OneTrailPoints(trailName))
  {
    RequestUrlInjective(base, AllLocationPoints, OneTrailPoints(trailName));
  }
}
