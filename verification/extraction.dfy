/** The field projections the client applies to a list of location points, stated as
    functions on values. The methods of `TrailService.Trails` are proved against them. */
module Extraction {
  import opened Json

  const LatitudeKey := "latitude"
  const LongitudeKey := "longitude"
  const ElevationKey := "elevation"
  const CommentKey := "commentId"
  const TrailNameKey := "trailName"

  /** The sentinel a location point carries in place of a comment identifier. */
  const NoComment: Value := Str("NC")

  /** Field `key` of every record, in input order; a record without the key still
      contributes one entry, `Null`. */
  function Project(records: seq<Record>, key: string): (r: seq<Value>)
    ensures |r| == |records|
    ensures forall i :: 0 <= i < |records| ==> r[i] == Get(records[i], key)
  {
    if records == [] then [] else [Get(records[0], key)] + Project(records[1..], key)
  }

  /** Python's `zip`: pairs up the two lists position by position and stops at the shorter one. */
  function Zip<A, B>(xs: seq<A>, ys: seq<B>): (r: seq<(A, B)>)
    ensures |r| == if |xs| <= |ys| then |xs| else |ys|
    ensures forall i :: 0 <= i < |r| ==> r[i] == (xs[i], ys[i])
  {
    if xs == [] || ys == [] then [] else [(xs[0], ys[0])] + Zip(xs[1..], ys[1..])
  }

  /** The (latitude, longitude) pair of every record, in input order. */
  function Coordinates(records: seq<Record>): (r: seq<(Value, Value)>)
    ensures |r| == |records|
    ensures forall i :: 0 <= i < |records| ==>
      r[i] == (Get(records[i], LatitudeKey), Get(records[i], LongitudeKey))
  {
    Zip(Project(records, LatitudeKey), Project(records, LongitudeKey))
  }

  /** The comment values that are not the `"NC"` sentinel, in order. A `Null` (missing
      `commentId`) is kept, since it differs from `"NC"`. */
  function Comments(values: seq<Value>): (r: seq<Value>)
    ensures |r| <= |values|
    ensures forall v :: v in r ==> v in values && v != NoComment
  {
    if values == [] then []
    else (if values[0] != NoComment then [values[0]] else []) + Comments(values[1..])
  }

  /** The number of comments among the records' `commentId` values: every record
      whose `commentId` is not `"NC"`. */
  function CommentCount(records: seq<Record>): (n: nat)
    ensures n <= |records|
    ensures n == |records| - multiset(Project(records, CommentKey))[NoComment]
  {
    CommentsCountsNonSentinels(Project(records, CommentKey));
    |Comments(Project(records, CommentKey))|
  }

  /** Projection distributes over concatenation of record lists. */
  lemma ProjectConcat(a: seq<Record>, b: seq<Record>, key: string)
    ensures Project(a + b, key) == Project(a, key) + Project(b, key)
  {
  }

  /** Filtering out the sentinel distributes over concatenation. */
  lemma {:induction false} CommentsConcat(a: seq<Value>, b: seq<Value>)
    ensures Comments(a + b) == Comments(a) + Comments(b)
  {
    if a == [] {
      assert a + b == b;
    } else {
      var head := if a[0] != NoComment then [a[0]] else [];
      assert (a + b)[0] == a[0];
      assert (a + b)[1..] == a[1..] + b;
      CommentsConcat(a[1..], b);
      calc {
        Comments(a + b);
        head + Comments(a[1..] + b);
        head + (Comments(a[1..]) + Comments(b));
        (head + Comments(a[1..])) + Comments(b);
      }
    }
  }

  /** The number of comments is the number of entries minus the occurrences of `"NC"`. */
  lemma {:induction false} CommentsCountsNonSentinels(values: seq<Value>)
    ensures |Comments(values)| == |values| - multiset(values)[NoComment]
  {
    if values != [] {
      assert values == [values[0]] + values[1..];
      assert multiset(values) == multiset([values[0]]) + multiset(values[1..]);
      CommentsCountsNonSentinels(values[1..]);
    }
  }

  /** There are no comments exactly when every entry is the sentinel. */
  lemma {:induction false} NoCommentsIffAllSentinel(values: seq<Value>)
    ensures |Comments(values)| == 0 <==> forall i :: 0 <= i < |values| ==> values[i] == NoComment
  {
    if values != [] {
      NoCommentsIffAllSentinel(values[1..]);
      assert forall i :: 1 <= i < |values| ==> values[i] == values[1..][i - 1];
    }
  }

  /** The comment count of two lists of points together is the sum of their counts. */
  lemma CommentCountConcat(a: seq<Record>, b: seq<Record>)
    ensures CommentCount(a + b) == CommentCount(a) + CommentCount(b)
  {
    ProjectConcat(a, b, CommentKey);
    CommentsConcat(Project(a, CommentKey), Project(b, CommentKey));
  }

  /** A point without a `commentId` is counted as a comment, because `None != "NC"`. */
  lemma MissingCommentIsCounted(r: Record)
    requires CommentKey !in r
    ensures Project([r], CommentKey) == [Null]
    ensures CommentCount([r]) == 1
  {
    assert Project([r], CommentKey)[0] == Null;
  }

  /** The comment count never exceeds the number of points. */
  lemma CommentCountBounded(records: seq<Record>)
    ensures CommentCount(records) <= |records|
  {
  }

  /** Empty input: every projection is empty and the count is zero. */
  lemma EmptyInput(key: string)
    ensures Project([], key) == []
    ensures Coordinates([]) == []
    ensures CommentCount([]) == 0
  {
  }

  /** Three points with comments `"NC"`, `"A1"`, `"NC"`: all three identifiers come back and one comment is counted. */
  lemma ThreePointExample()
    ensures var pts := [map[CommentKey := NoComment], map[CommentKey := Str("A1")], map[CommentKey := NoComment]];
      Project(pts, CommentKey) == [NoComment, Str("A1"), NoComment] && CommentCount(pts) == 1
  {
    var pts := [map[CommentKey := NoComment], map[CommentKey := Str("A1")], map[CommentKey := NoComment]];
    var ids := Project(pts, CommentKey);
    assert ids == [NoComment, Str("A1"), NoComment];
    assert ids[1..][1..] == [NoComment];
    assert Comments([NoComment]) == [];
    assert Comments(ids[1..]) == [Str("A1")];
  }

  /** Two points at (50.1, -4.2) and (50.3, -4.5) give those two pairs, in input order. */
  lemma TwoPointCoordinatesExample()
    ensures var pts := [map[LatitudeKey := Num(50.1), LongitudeKey := Num(-4.2)],
                        map[LatitudeKey := Num(50.3), LongitudeKey := Num(-4.5)]];
      Coordinates(pts) == [(Num(50.1), Num(-4.2)), (Num(50.3), Num(-4.5))]
  {
    var pts := [map[LatitudeKey := Num(50.1), LongitudeKey := Num(-4.2)],
                map[LatitudeKey := Num(50.3), LongitudeKey := Num(-4.5)]];
    assert |Coordinates(pts)| == 2;
  }
}
