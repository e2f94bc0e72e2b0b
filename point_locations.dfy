/** Decoding of point-along-line locations: stepping a linear offset into a
    resolved path to find the line it falls on and the local offset into that
    line, and scaling an offset fraction by the path's length before doing so. */
module PointLocations {
  import opened Maps

  /** A dereferenced point along a line location: the line it lies on and how
      many meters from that line's start. */
  datatype PointAlongLine = PointAlongLine(line: Line, metersInto: real)

  /** The decoder's error, carrying its message. */
  datatype DecodeError = LRDecodeError(message: string)

  datatype Result<T> = Ok(value: T) | Err(error: DecodeError)

  /** The error raised when the offset runs past the end of the path. */
  const PathExhausted := LRDecodeError("Path length exceeded while projecting point")

  /** The least index `k >= i` whose prefix through line `k` reaches `length`,
      or `|path|` when no line from `i` on reaches it. */
  function FirstReaching(path: seq<Line>, length: real, i: nat): (k: nat)
    requires i <= |path|
    ensures i <= k <= |path|
    ensures forall j :: i <= j < k ==> CumulativeLength(path, j) < length
    ensures k < |path| ==> length <= CumulativeLength(path, k)
    decreases |path| - i
  {
    if i == |path| then |path|
    else if length <= CumulativeLength(path, i) then i
    else FirstReaching(path, length, i + 1)
  }

  /** What projecting `length` meters into `path` yields, stated with prefix
      sums: the first line whose cumulative length reaches the offset, at the
      offset minus the lengths of the lines before it; an error if none does. */
  function Projection(path: seq<Line>, length: real): Result<PointAlongLine>
  {
    var k := FirstReaching(path, length, 0);
    if k == |path| then Err(PathExhausted)
    else Ok(PointAlongLine(path[k], length - PrefixLength(path, k)))
  }

  /** Steps `length` meters into `path`, keeping the distance still to go, and
      returns the line the point falls on with the remaining offset into it.
      A remainder equal to a line's length stays on that line. */
  method PointAlongLineLocation(path: seq<Line>, length: real) returns (r: Result<PointAlongLine>)
    ensures r == Projection(path, length)
  {
    var leftover := length;
    for i := 0 to |path|
      invariant leftover == length - PrefixLength(path, i)
      invariant forall j :: 0 <= j < i ==> CumulativeLength(path, j) < length
    {
      var road := path[i];
      PrefixLengthStep(path, i);
      if leftover > road.length {
        leftover := leftover - road.length;
      } else {
        ProjectionLocates(path, length, i);
        return Ok(PointAlongLine(road, leftover));
      }
    }
    return Err(PathExhausted);
  }

  /** The absolute offset of the fraction `poffs` of the path's length. */
  function AbsoluteOffset(path: seq<Line>, poffs: real): real
  {
    PathLength(path) * poffs
  }

  /** Decodes a point along line location whose path has already been resolved:
      the offset fraction `poffs` is scaled by the path's length and projected.
      For a fraction in [0, 1] on a non-empty path of non-negative lengths the
      projection never fails and lands within the returned line. */
  method DecodePointAlongLine(path: seq<Line>, poffs: real) returns (r: Result<PointAlongLine>)
    ensures r == Projection(path, AbsoluteOffset(path, poffs))
    ensures 0.0 <= poffs <= 1.0 && |path| > 0 && NonNegativeLengths(path) ==>
              r.Ok? && 0.0 <= r.value.metersInto <= r.value.line.length
  {
    var absoluteOffset := AbsoluteOffset(path, poffs);
    r := PointAlongLineLocation(path, absoluteOffset);
    if 0.0 <= poffs <= 1.0 && |path| > 0 && NonNegativeLengths(path) {
      FractionWithinPath(path, poffs);
      ProjectionSucceeds(path, absoluteOffset);
      ProjectionWithinLine(path, absoluteOffset);
    }
  }

  /** Any index meeting the first-reaching conditions is the one the projection
      picks, at the offset minus the lengths of the lines before it. */
  lemma ProjectionLocates(path: seq<Line>, length: real, k: nat)
    requires k < |path|
    requires length <= CumulativeLength(path, k)
    requires forall j :: 0 <= j < k ==> CumulativeLength(path, j) < length
    ensures Projection(path, length) == Ok(PointAlongLine(path[k], length - PrefixLength(path, k)))
  {
  }

  /** Round trip: the returned offset plus the lengths of the lines before the
      returned line is the requested offset; that line is the first whose
      cumulative length reaches the offset and every earlier one falls short. */
  lemma ProjectionRoundTrip(path: seq<Line>, length: real)
    requires Projection(path, length).Ok?
    ensures var k := FirstReaching(path, length, 0);
      k < |path| && Projection(path, length).value.line == path[k] &&
      Projection(path, length).value.metersInto + PrefixLength(path, k) == length &&
      length <= CumulativeLength(path, k) &&
      (forall j :: 0 <= j < k ==> CumulativeLength(path, j) < length)
  {
  }

  /** An offset no longer than a non-empty path always projects. */
  lemma ProjectionSucceeds(path: seq<Line>, length: real)
    requires |path| > 0
    requires length <= PathLength(path)
    ensures Projection(path, length).Ok?
  {
    PrefixLengthEnds(path);
    assert length <= CumulativeLength(path, |path| - 1);
  }

  /** An empty path, or an offset beyond a path of non-negative lengths, is
      rejected with the decode error; with non-negative lengths these are the
      only failures. */
  lemma ProjectionFailsIff(path: seq<Line>, length: real)
    requires NonNegativeLengths(path)
    ensures Projection(path, length) == Err(PathExhausted) <==>
              (|path| == 0 || length > PathLength(path))
  {
    PrefixLengthEnds(path);
    if |path| > 0 && length > PathLength(path) {
      var k := FirstReaching(path, length, 0);
      if k < |path| {
        PrefixLengthMonotone(path, k + 1, |path|);
      }
    } else if |path| > 0 {
      ProjectionSucceeds(path, length);
    }
  }

  /** The returned offset lies within the returned line when the requested
      offset is non-negative, and is strictly positive past the first line. */
  lemma ProjectionWithinLine(path: seq<Line>, length: real)
    requires Projection(path, length).Ok?
    requires length >= 0.0
    ensures 0.0 <= Projection(path, length).value.metersInto <= Projection(path, length).value.line.length
    ensures FirstReaching(path, length, 0) > 0 ==> Projection(path, length).value.metersInto > 0.0
  {
    var k := FirstReaching(path, length, 0);
    PrefixLengthStep(path, k);
    PrefixLengthEnds(path);
    if k > 0 {
      assert CumulativeLength(path, k - 1) < length;
    }
  }

  /** Offset zero lands on the first line at offset zero. */
  lemma ProjectionAtZero(path: seq<Line>)
    requires |path| > 0
    requires path[0].length >= 0.0
    ensures Projection(path, 0.0) == Ok(PointAlongLine(path[0], 0.0))
  {
    PrefixLengthEnds(path);
    PrefixLengthStep(path, 0);
    ProjectionLocates(path, 0.0, 0);
  }

  /** There is no check for a negative offset: it lands on the first line with
      that negative offset. */
  lemma ProjectionNegativeOffset(path: seq<Line>, length: real)
    requires |path| > 0
    requires path[0].length >= 0.0
    requires length < 0.0
    ensures Projection(path, length) == Ok(PointAlongLine(path[0], length))
  {
    PrefixLengthEnds(path);
    PrefixLengthStep(path, 0);
    ProjectionLocates(path, length, 0);
  }

  /** An offset exactly at the end of line `k - 1` (a line of positive length)
      is attributed to that line at its full length, not to the start of line `k`. */
  lemma ProjectionAtBoundary(path: seq<Line>, k: nat)
    requires NonNegativeLengths(path)
    requires 0 < k <= |path|
    requires path[k - 1].length > 0.0
    ensures Projection(path, PrefixLength(path, k)) == Ok(PointAlongLine(path[k - 1], path[k - 1].length))
  {
    var length := PrefixLength(path, k);
    PrefixLengthStep(path, k - 1);
    forall j | 0 <= j < k - 1
      ensures CumulativeLength(path, j) < length
    {
      PrefixLengthMonotone(path, j + 1, k - 1);
    }
    ProjectionLocates(path, length, k - 1);
  }

  /** The whole path's length lands on the last line of positive length, at that
      line's own length; zero-length lines after it are never reached. */
  lemma ProjectionAtPathEnd(path: seq<Line>, j: nat)
    requires NonNegativeLengths(path)
    requires j < |path|
    requires path[j].length > 0.0
    requires forall i :: j < i < |path| ==> path[i].length == 0.0
    ensures Projection(path, PathLength(path)) == Ok(PointAlongLine(path[j], path[j].length))
  {
    LengthThroughLastPositive(path, j);
    ProjectionAtBoundary(path, j + 1);
  }

  /** A fraction in [0, 1] of a path of non-negative lengths is an offset within
      the path. */
  lemma FractionWithinPath(path: seq<Line>, poffs: real)
    requires NonNegativeLengths(path)
    requires 0.0 <= poffs <= 1.0
    ensures 0.0 <= AbsoluteOffset(path, poffs) <= PathLength(path)
  {
    var total := PathLength(path);
    PathLengthNonNegative(path);
    assert total - total * poffs == total * (1.0 - poffs);
  }

  /** A fraction of zero decodes to the first line at offset zero. */
  lemma DecodeAtZeroFraction(path: seq<Line>)
    requires |path| > 0
    requires path[0].length >= 0.0
    ensures Projection(path, AbsoluteOffset(path, 0.0)) == Ok(PointAlongLine(path[0], 0.0))
  {
    ProjectionAtZero(path);
  }

  /** A fraction of one decodes to the last line of positive length, at that
      line's own length. */
  lemma DecodeAtFullFraction(path: seq<Line>, j: nat)
    requires NonNegativeLengths(path)
    requires j < |path|
    requires path[j].length > 0.0
    requires forall i :: j < i < |path| ==> path[i].length == 0.0
    ensures Projection(path, AbsoluteOffset(path, 1.0)) == Ok(PointAlongLine(path[j], path[j].length))
  {
    ProjectionAtPathEnd(path, j);
  }

  /** Two lines of 100 m and 50 m: offset 100 stays on the first line at 100 m. */
  lemma BoundaryExample()
    ensures Projection([Line(1, 100.0), Line(2, 50.0)], 100.0) == Ok(PointAlongLine(Line(1, 100.0), 100.0))
  {
  }

  /** One line of 271 m: offset 135.5 lands on it at 135.5 m, and an offset past
      its end is rejected. */
  lemma SingleLineExample()
    ensures Projection([Line(1, 271.0)], 135.5) == Ok(PointAlongLine(Line(1, 271.0), 135.5))
    ensures Projection([Line(1, 271.0)], 271.5) == Err(PathExhausted)
  {
  }
}
