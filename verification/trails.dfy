/** The `Trails` client: one base URL, the request URLs built from it, and the loops
    that turn a list of location points into the lists the plot and the map draw. */
module TrailService {
  import opened Wrappers
  import opened Json
  import opened Extraction
  import opened Endpoints

  /** Why plotting failed: the first point was read from an empty list. */
  datatype PlotError = IndexError

  /** The scatter figure `plot_trail` shows: longitude across, latitude up, coloured by elevation. */
  datatype Scatter = Scatter(
    x: seq<Value>,
    y: seq<Value>,
    color: seq<Value>,
    colorScale: string,
    title: Value,
    xAxisTitle: string,
    yAxisTitle: string)

  /** The map `create_map` returns: one marker per coordinate pair, in the order added. */
  datatype MarkerMap = MarkerMap(markers: seq<(Value, Value)>)

  const DescribePrefix := "The url in this instance is:  "

  class Trails {
    /** The base URL of the service. No method has a `modifies` clause, so none can change it. */
    var url: string

    constructor (apiUrl: string)
      ensures url == apiUrl
    {
      url := apiUrl;
    }

    /** The text that names the instance's base URL. */
    method Describe() returns (s: string)
      ensures s == DescribePrefix + url + " "
      ensures s[|DescribePrefix|..|s| - 1] == url
    {
      s := DescribePrefix + url + " ";
      assert s[|DescribePrefix|..|s| - 1] == url;
    }

    /** The URL `get_users` requests. */
    method GetUsers() returns (requestUrl: string)
      ensures requestUrl == url + "/users"
      ensures Route(url, requestUrl) == Some(AllUsers)
    {
      requestUrl := RequestUrl(url, AllUsers);
      RouteRequestUrl(url, AllUsers);
    }

    /** The URL `get_user_by_name` requests; the name follows `/users/` unescaped. */
    method GetUserByName(username: string) returns (requestUrl: string)
      ensures requestUrl == url + "/users/" + username
      ensures Route(url, requestUrl) == Some(OneUser(username))
    {
      requestUrl := RequestUrl(url, OneUser(username));
      RouteRequestUrl(url, OneUser(username));
    }

    /** The URL `get_trails` requests. */
    method GetTrails() returns (requestUrl: string)
      ensures requestUrl == url + "/trails"
      ensures Route(url, requestUrl) == Some(AllTrails)
    {
      requestUrl := RequestUrl(url, AllTrails);
      RouteRequestUrl(url, AllTrails);
    }

    /** The URL `get_location_points` requests (lower-case `l`). */
    method GetLocationPoints() returns (requestUrl: string)
      ensures requestUrl == url + "/locationpoints"
      ensures Route(url, requestUrl) == Some(AllLocationPoints)
    {
      requestUrl := RequestUrl(url, AllLocationPoints);
      RouteRequestUrl(url, AllLocationPoints);
    }

    /** The URL `get_one_trail_points` requests (upper-case `L`); the name follows unescaped. */
    method GetOneTrailPoints(trailName: string) returns (requestUrl: string)
      ensures requestUrl == url + "/Locationpoints/" + trailName
      ensures Route(url, requestUrl) == Some(OneTrailPoints(trailName))
    {
      requestUrl := RequestUrl(url, OneTrailPoints(trailName));
      RouteRequestUrl(url, OneTrailPoints(trailName));
    }

    /** Latitudes and longitudes of the points, one entry per point, index-aligned with the input. */
    method GetLatAndLongs(responseList: seq<Record>) returns (lats: seq<Value>, longs: seq<Value>)
      ensures lats == Project(responseList, LatitudeKey)
      ensures longs == Project(responseList, LongitudeKey)
    {
      lats, longs := [], [];
      for i := 0 to |responseList|
        invariant |lats| == |longs| == i
        invariant forall j :: 0 <= j < i ==> lats[j] == Get(responseList[j], LatitudeKey)
        invariant forall j :: 0 <= j < i ==> longs[j] == Get(responseList[j], LongitudeKey)
      {
        lats := lats + [Get(responseList[i], LatitudeKey)];
        longs := longs + [Get(responseList[i], LongitudeKey)];
      }
    }

    /** The (latitude, longitude) pair of every point: the two lists of `GetLatAndLongs` zipped. */
    method GetCoords(responseList: seq<Record>) returns (coordinates: seq<(Value, Value)>)
      ensures coordinates == Coordinates(responseList)
      ensures |coordinates| == |responseList|
      ensures forall i :: 0 <= i < |responseList| ==>
        coordinates[i] == (Get(responseList[i], LatitudeKey), Get(responseList[i], LongitudeKey))
    {
      var lats: seq<Value> := [];
      var longs: seq<Value> := [];
      for i := 0 to |responseList|
        invariant |lats| == |longs| == i
        invariant forall j :: 0 <= j < i ==> lats[j] == Get(responseList[j], LatitudeKey)
        invariant forall j :: 0 <= j < i ==> longs[j] == Get(responseList[j], LongitudeKey)
      {
        lats := lats + [Get(responseList[i], LatitudeKey)];
        longs := longs + [Get(responseList[i], LongitudeKey)];
      }
      coordinates := Zip(lats, longs);
    }

    /** The elevation of every point, in order; a point without one gives `Null`, never a gap. */
    method GetElevation(responseList: seq<Record>) returns (elevations: seq<Value>)
      ensures elevations == Project(responseList, ElevationKey)
    {
      elevations := [];
      for i := 0 to |responseList|
        invariant |elevations| == i
        invariant forall j :: 0 <= j < i ==> elevations[j] == Get(responseList[j], ElevationKey)
      {
        elevations := elevations + [Get(responseList[i], ElevationKey)];
      }
    }

    /** Every `commentId`, in order and including the `"NC"` sentinels; `printedCount` is the
        number the method prints, the entries that are not `"NC"`. */
    method GetComments(responseList: seq<Record>) returns (allComments: seq<Value>, printedCount: nat)
      ensures allComments == Project(responseList, CommentKey)
      ensures printedCount == CommentCount(responseList)
    {
      allComments := [];
      var commentIds: seq<Value> := [];
      for i := 0 to |responseList|
        invariant |allComments| == i
        invariant forall j :: 0 <= j < i ==> allComments[j] == Get(responseList[j], CommentKey)
        invariant commentIds == Comments(allComments)
      {
        var c := Get(responseList[i], CommentKey);
        CommentsConcat(allComments, [c]);
        assert Comments([c]) == if c != NoComment then [c] else [];
        allComments := allComments + [c];
        if c != NoComment {
          commentIds := commentIds + [c];
        }
      }
      printedCount := |commentIds|;
    }

    /** The scatter plot of one trail, or `IndexError` when there is no first point to title it. */
    method PlotTrail(returnedPoints: seq<Record>) returns (r: Result<Scatter, PlotError>)
      ensures r.Failure? <==> returnedPoints == []
      ensures r.Success? ==> r.value == Scatter(
        Project(returnedPoints, LongitudeKey),
        Project(returnedPoints, LatitudeKey),
        Project(returnedPoints, ElevationKey),
        "Sunsetdark",
        Get(returnedPoints[0], TrailNameKey),
        "Longitude",
        "Latitude")
    {
      var points := returnedPoints;
      var ele := GetElevation(points);
      var lats, longs := GetLatAndLongs(points);
      if |points| == 0 {
        return Failure(IndexError);
      }
      var title := Get(points[0], TrailNameKey);
      r := Success(Scatter(longs, lats, ele, "Sunsetdark", title, "Longitude", "Latitude"));
    }

    /** A map with one marker per point, at that point's coordinates, in input order. */
    method CreateMap(responseList: seq<Record>) returns (m: MarkerMap)
      ensures m.markers == Coordinates(responseList)
      ensures |m.markers| == |responseList|
    {
      m := MarkerMap([]);
      var coords := GetCoords(responseList);
      for k := 0 to |coords|
        invariant m.markers == coords[..k]
      {
        m := MarkerMap(m.markers + [coords[k]]);
      }
      assert coords[..|coords|] == coords;
    }
  }
}
