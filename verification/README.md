# TrailService client — a Dafny model

This project models the `Trails` client of the TrailService REST API (`main.py`): an
object bound to one base URL that builds the request URL of each resource (users, one
user, trails, all location points, one trail's points), and the loops that turn a list
of decoded location-point records into parallel lists: latitudes and longitudes,
coordinate pairs and elevations, which the scatter plot and the map draw, and the
comment identifiers together with the comment count that `get_comments` prints.

Layout:

- `wrappers.dfy` — `Option` and `Result`.
- `json.dfy` — decoded JSON values; a record is a `map<string, Value>` and `Get` is
  `dict.get`. Python's `None` for an absent key is `Json.Null`: Python cannot tell an
  absent key from a JSON `null` either, so the model does not separate them.
- `extraction.dfy` — the projections as functions (`Project`, `Zip`, `Comments`,
  `CommentCount`) and the lemmas about them.
- `endpoints.dfy` — the resources as an `Endpoint` datatype, the URL built for each,
  and `Route`, which reads a URL back into the resource it requests; the round trip
  shows that the URLs are pairwise distinct and carry names verbatim.
- `trails.dfy` — the `Trails` class with its `url` field and one method per source
  method; the extractor methods keep the source's loops and are proved against the
  functions of `extraction.dfy`.

The fetch methods return the URL they would request: the HTTP request and the decoded
body are outside the model. The comment count that `get_comments` prints is returned as
the out-parameter `printedCount`. The `IndexError` that `plot_trail` raises on an empty
list is the `Failure(IndexError)` result of `PlotTrail`.

## Model

| member | source | states |
|---|---|---|
| TrailService.Trails.constructor | main.py:16-17 | the client holds exactly the base URL it was given |
| TrailService.Trails.Describe | main.py:19-20 | the description is the fixed prefix, the base URL and a space, and the URL can be read back from it |
| TrailService.Trails.GetUsers | main.py:22-23 | requests base URL + `/users`, which routes to the users collection |
| TrailService.Trails.GetUserByName | main.py:30-31 | requests base URL + `/users/` + the name, unescaped; routes back to that user name |
| TrailService.Trails.GetTrails | main.py:39-40 | requests base URL + `/trails`, which routes to the trail collection |
| TrailService.Trails.GetLocationPoints | main.py:47-48 | requests base URL + `/locationpoints` (lower-case `l`) |
| TrailService.Trails.GetOneTrailPoints | main.py:55-56 | requests base URL + `/Locationpoints/` (upper-case `L`) + the trail name, unescaped; routes back to that name |
| TrailService.Trails.GetLatAndLongs | main.py:63-70 | two lists as long as the input; entry i is record i's `latitude` / `longitude`, or null when absent |
| TrailService.Trails.GetCoords | main.py:72-79 | as long as the input; pair i is (record i's latitude, record i's longitude); equals zipping the two lists of `GetLatAndLongs` |
| TrailService.Trails.GetElevation | main.py:81-85 | as long as the input, in order; entry i is record i's `elevation` or null, so a missing key never shrinks the output |
| TrailService.Trails.GetComments | main.py:88-98 | returns every `commentId` in order, `"NC"` included; the printed count is the number of those entries other than `"NC"` (`Extraction.CommentCount`) |
| TrailService.Trails.PlotTrail | main.py:100-117 | fails with an index error exactly when the list is empty; otherwise x = longitudes, y = latitudes, colour = elevations, title = first record's `trailName` |
| TrailService.Trails.CreateMap | main.py:119-124 | one marker per point, at that point's (latitude, longitude), in input order |
| Json.Get | main.py:67-68 | `dict.get(d, key)`: an absent key gives null (Python's `None`), and the result is null exactly when the key is absent or holds a JSON null |
| Extraction.Project | main.py:66-68 | `dict.get` of one key over a record list: same length, entry i is record i's value or null |
| Extraction.Zip | main.py:78 | `zip` pairs position i of both lists and is as long as the shorter list |
| Extraction.Comments | main.py:91-96 | the kept comment ids are drawn from the input and none is `"NC"` |
| Extraction.Coordinates | main.py:78 | `list(zip(lats, longs))` over the points: one pair per record, and pair i is record i's own latitude and longitude |
| Extraction.CommentCount | main.py:95-97 | `len(comment_ids)`: at most the number of points, and equal to the number of points minus the occurrences of `"NC"` among their `commentId` values |
| Extraction.ProjectConcat | main.py:66-68 | projecting two lists of records together equals projecting each and concatenating |
| Extraction.CommentsConcat | main.py:91-96 | dropping the `"NC"` entries distributes over concatenation |
| Extraction.CommentsCountsNonSentinels | main.py:92-97 | the count is the number of entries minus the occurrences of `"NC"` |
| Extraction.NoCommentsIffAllSentinel | main.py:95-97 | the count is zero exactly when every entry is `"NC"` |
| Extraction.CommentCountConcat | main.py:92-97 | the count over two point lists together is the sum of their counts |
| Extraction.MissingCommentIsCounted | main.py:92-96 | a record without `commentId` yields a null entry and is counted as a comment |
| Extraction.CommentCountBounded | main.py:95-97 | the count never exceeds the number of points |
| Extraction.EmptyInput | main.py:63-98 | an empty list gives empty projections, no coordinates and a count of 0 |
| Extraction.ThreePointExample | main.py:88-98 | comments `"NC"`, `"A1"`, `"NC"` come back unchanged and count 1 |
| Extraction.TwoPointCoordinatesExample | main.py:72-79 | points (50.1, -4.2) and (50.3, -4.5) give those two pairs in order |
| Endpoints.Path | main.py:23-56 | the suffix each fetch method appends starts with `/`; the user and trail-points suffixes are their fixed prefix followed by the name verbatim |
| Endpoints.Route | main.py:23-56 | reference parser with no counterpart in the source: a URL it accepts starts with the base URL and extends it |
| Endpoints.RequestUrl | main.py:23-56 | every request URL starts with the unchanged base URL and is longer than it |
| Endpoints.RouteRequestUrl | main.py:23-56 | reading a built URL back gives the resource it was built for, names recovered character for character |
| Endpoints.RouteOnlyRequestUrls | main.py:23-56 | a URL that reads back as a resource is exactly that resource's built URL |
| Endpoints.RequestUrlInjective | main.py:23-56 | two requests share a URL exactly when they are the same request |
| Endpoints.LocationPointPathsDiffer | main.py:48-56 | the `/locationpoints` URL differs from every `/Locationpoints/<name>` URL |

## Left out

- HTTP: `requests.get` and `.json()` in every fetch method are network I/O; the model stops at the URL string, and transport or decoding failures are not modelled.
- The `json.dumps` results in the fetch methods are never used and have no effect.
- The `print` calls that log URLs, `print(points[0])` in `plot_trail` and the console output itself; only the printed comment count is kept, as a returned value.
- The unused `coordinates` lists built in `get_lat_and_longs` and `plot_trail`.
- TrailService.Trails.PlotTrail: `plot_trail` returns `None`; the `Success` value stands for the figure `fig.show()` displays. Plotly's rendering, its unused `labels` mapping and `fig.show()` itself are foreign library calls and UI.
- TrailService.Trails.CreateMap: the folium map is reduced to its marker list; the library's defaults, its checks on marker positions and rendering are not modelled.
- `plot_trail` and `create_map` call the extractors through the module-level instance `getting_trails`; the model calls them on the same instance.
- Inputs the Python rejects with a `TypeError` (a response that is not a list of JSON objects, a non-string name) are excluded by the types.
- Numbers are opaque reals; nothing depends on floating-point arithmetic.
- The `__main__` demo script and `test_TrailService.py` (which calls a `check_responses` method the class does not define and needs a live server).
