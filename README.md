# Point-along-line decoding of OpenLR location references

This project models, in Dafny, how the OpenLR dereferencer turns a point along
line location into a point on a road line, once the reference's waypoints have
been resolved into a path of map lines:

- `point_along_linelocation` walks the path line by line with a running
  remainder of the requested offset. It returns the first line on which the
  remainder no longer exceeds the line's length, together with that remainder
  as the offset in meters into the line. If the path runs out first, it raises
  `LRDecodeError("Path length exceeded while projecting point")`.
- `decode_pointalongline` multiplies the path's total length by the
  reference's offset fraction `poffs` and projects the result.

Module `Maps` (`maps.dfy`) holds the line (an identity and a real length in
meters) and the path's total and prefix lengths. Module `PointLocations`
(`point_locations.dfy`) holds the `PointAlongLine` record, the decode error, the
projector as a method with a loop, and the decoder.

The projector is proved equal to `Projection`, a specification written with
prefix sums instead of a running remainder. `Projection` picks the least index
`k` whose cumulative length (lines `0..k` summed) reaches the offset, and it
returns that line at the offset minus the length of the lines before it. The
lemmas about `Projection` state when projection succeeds or fails, the round
trip back to the offset, the bounds of the local offset, and how boundary
offsets are attributed.

Three behaviours of the code are kept exactly as written:

- The comparison is strict (`leftover_length > road.length`). So, on a path of
  non-negative lengths, an offset that lands exactly on the end of a line of
  positive length stays on that line at its full length; it is not moved to the start of the next line. For a path of
  100 m and 50 m lines, offset 100 gives the first line at 100 m.
- On a path of non-negative lengths with at least one line of positive
  length, the offset equal to the whole path's length lands on the last line
  of positive length, at its own length. Zero-length lines after it are never
  returned.
- There is no floating-point tolerance, and nothing rejects a negative offset or
  a fraction outside `[0, 1]`. On a non-empty path whose first line has
  non-negative length, a negative offset lands on that first line with the
  negative local offset.

Lengths are mathematical reals. The source does not check that line lengths
are non-negative, so the projector and `Projection` accept any lengths. Only
the lemmas that need non-negative lengths require them.

## Model

| member | source | states |
|---|---|---|
| `PointLocations.FirstReaching` | openlr_dereferencer/decoding/point_locations.py:27-29 | the index it returns is the least one from `i` on whose cumulative length reaches the offset: every earlier line falls strictly short, and `|path|` means no line reaches it |
| `PointLocations.PointAlongLineLocation` | openlr_dereferencer/decoding/point_locations.py:22-32 | the loop with its running remainder returns exactly what the prefix-sum specification `Projection` gives: the first line reaching the offset with the remainder, or the "path length exceeded" decode error |
| `PointLocations.DecodePointAlongLine` | openlr_dereferencer/decoding/point_locations.py:34-40 | the result is the projection of `PathLength(path) * poffs`, with the resolved path given as input; for `0 <= poffs <= 1` on a non-empty path of non-negative lengths it never fails and the local offset lies within the returned line |
| `PointLocations.ProjectionLocates` | openlr_dereferencer/decoding/point_locations.py:27-31 | any line index whose cumulative length reaches the offset while every earlier one falls strictly short is the line returned, at the offset minus the lengths before it |
| `PointLocations.ProjectionRoundTrip` | openlr_dereferencer/decoding/point_locations.py:26-31 | on success, the returned `meters_into` plus the summed lengths of the lines before the returned line equals the requested offset, and that line is the first to reach it |
| `PointLocations.ProjectionSucceeds` | openlr_dereferencer/decoding/point_locations.py:26-31 | a non-empty path whose total length is at least the offset always yields a point; no non-negativity of lengths is needed |
| `PointLocations.ProjectionFailsIff` | openlr_dereferencer/decoding/point_locations.py:27-32 | with non-negative lengths, the decode error is raised if and only if the path is empty or the offset exceeds the total length |
| `PointLocations.ProjectionWithinLine` | openlr_dereferencer/decoding/point_locations.py:28-31 | for a non-negative offset the local offset lies in `[0, line.length]`, and is strictly positive on any line after the first |
| `PointLocations.ProjectionAtZero` | openlr_dereferencer/decoding/point_locations.py:26-31 | offset 0 on a non-empty path whose first line has non-negative length gives the first line at offset 0 |
| `PointLocations.ProjectionNegativeOffset` | openlr_dereferencer/decoding/point_locations.py:26-31 | a negative offset is not rejected: on a non-empty path whose first line has non-negative length, it gives that first line with the negative local offset |
| `PointLocations.ProjectionAtBoundary` | openlr_dereferencer/decoding/point_locations.py:28-31 | with non-negative lengths, an offset equal to the summed length of lines `0..k-1`, line `k-1` being positive, gives line `k-1` at its full length, not line `k` at 0 |
| `PointLocations.ProjectionAtPathEnd` | openlr_dereferencer/decoding/point_locations.py:28-31 | on a path of non-negative lengths with at least one line of positive length, the total length gives the last line of positive length at its own length |
| `PointLocations.FractionWithinPath` | openlr_dereferencer/decoding/point_locations.py:39 | a fraction in `[0, 1]` of a path of non-negative lengths is an absolute offset between 0 and the path's length |
| `PointLocations.DecodeAtZeroFraction` | openlr_dereferencer/decoding/point_locations.py:39-40 | on a non-empty path whose first line has non-negative length, fraction 0 decodes to the first line at offset 0 |
| `PointLocations.DecodeAtFullFraction` | openlr_dereferencer/decoding/point_locations.py:39-40 | on a path of non-negative lengths with at least one line of positive length, fraction 1 decodes to the last line of positive length at its own length |
| `PointLocations.BoundaryExample` | openlr_dereferencer/decoding/point_locations.py:28-31 | on lines of 100 m and 50 m, offset 100 gives the first line at 100 m |
| `PointLocations.SingleLineExample` | openlr_dereferencer/decoding/point_locations.py:26-32 | on one 271 m line, offset 135.5 gives that line at 135.5 m, and offset 271.5 raises the decode error |
| `Maps.PrefixLengthMonotone` | openlr_dereferencer/decoding/point_locations.py:27-29 | with non-negative lengths, a longer prefix of the path is never shorter |

## Left out

- `PointAlongLine.location` and `point_along_path` (WGS84 geodesic interpolation along the line's geometry): floating-point geodesy in a module that is not part of this model.
- `dereference_path` (candidate matching and path search): not part of this model; the decoder takes the resolved path as a parameter, and the map reader and search radius are dropped with it.
- `path_length` from the maps package is not part of this model; `Maps.PathLength` defines the total length as the sum of the line lengths and claims nothing about how the maps package computes it.
- The map reader interface and line geometry or node queries: a foreign backend; a line is reduced to its identity and length.
- The SQLite/SpatiaLite example map reader and its tests: database I/O.
- Floating-point rounding: lengths and offsets are exact reals, so the model does not capture rounding in the summed path length or in the running subtraction; NaN and infinite offsets or lengths are not modelled either (in the source a NaN offset makes the comparison false and returns the first line with a NaN offset, a positive infinite offset reaches the error unless some line is itself infinitely long, and a negative infinite offset returns the first line). The three members below rely on exact arithmetic.
- DecodePointAlongLine: "never fails for `0 <= poffs <= 1`" holds for exact reals only; in binary floating point the summed length times 1.0 can exceed what the running subtraction leaves, and the source may then raise the decode error.
- ProjectionAtPathEnd: holds for exact reals only; in floating point the running subtraction may leave a remainder just above or below a line's length, so the source may stop on an earlier line or raise the decode error.
- DecodeAtFullFraction: holds for exact reals only, for the same reason as ProjectionAtPathEnd, at `poffs = 1.0`.
