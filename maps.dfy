/** Road lines and paths as the point projector sees them: a line is known by its
    identity and its length in meters, and a path is an ordered sequence of lines.
    The geometry, the nodes and the map backend that serves lines are not part of
    this model. */
module Maps {

  /** A directed road line. Lengths are mathematical reals; road lines have
      non-negative lengths, which the lemmas that need it state as a precondition. */
  datatype Line = Line(id: nat, length: real)

  /** Every line of the path has a non-negative length. */
  predicate NonNegativeLengths(path: seq<Line>)
  {
    forall i :: 0 <= i < |path| ==> path[i].length >= 0.0
  }

  /** The total length of a path: the sum of its lines' lengths. */
  function PathLength(path: seq<Line>): real
  {
    if path == [] then 0.0 else path[0].length + PathLength(path[1..])
  }

  /** The summed length of the first `k` lines of `path`. */
  function PrefixLength(path: seq<Line>, k: nat): real
    requires k <= |path|
  {
    PathLength(path[..k])
  }

  /** The length of a concatenation is the sum of the lengths. */
  lemma {:induction false} PathLengthAppend(s: seq<Line>, t: seq<Line>)
    ensures PathLength(s + t) == PathLength(s) + PathLength(t)
  {
    if s == [] {
      assert s + t == t;
    } else {
      assert (s + t)[1..] == s[1..] + t;
      PathLengthAppend(s[1..], t);
    }
  }

  /** Adding line `k` to the prefix of length `k` adds exactly that line's length. */
  lemma PrefixLengthStep(path: seq<Line>, k: nat)
    requires k < |path|
    ensures PrefixLength(path, k + 1) == PrefixLength(path, k) + path[k].length
  {
    assert path[..k + 1] == path[..k] + [path[k]];
    PathLengthAppend(path[..k], [path[k]]);
    assert PathLength([path[k]]) == path[k].length by {
      assert [path[k]][1..] == [];
    }
  }

  /** The summed length of lines `0` through `j` of `path`, line `j` included. */
  function CumulativeLength(path: seq<Line>, j: nat): real
    requires j < |path|
  {
    PrefixLength(path, j + 1)
  }

  /** The empty prefix has length zero and the full prefix is the whole path. */
  lemma PrefixLengthEnds(path: seq<Line>)
    ensures PrefixLength(path, 0) == 0.0
    ensures PrefixLength(path, |path|) == PathLength(path)
  {
    assert path[..|path|] == path;
  }

  /** With non-negative lengths, a longer prefix is never shorter. */
  lemma {:induction false} PrefixLengthMonotone(path: seq<Line>, j: nat, k: nat)
    requires NonNegativeLengths(path)
    requires j <= k <= |path|
    ensures PrefixLength(path, j) <= PrefixLength(path, k)
    decreases k - j
  {
    if j < k {
      PrefixLengthStep(path, j);
      PrefixLengthMonotone(path, j + 1, k);
    }
  }

  /** With non-negative lengths, the total length is non-negative. */
  lemma PathLengthNonNegative(path: seq<Line>)
    requires NonNegativeLengths(path)
    ensures PathLength(path) >= 0.0
  {
    PrefixLengthEnds(path);
    PrefixLengthMonotone(path, 0, |path|);
  }

  /** If every line after index `j` has length zero, the prefix through line `j`
      already has the whole path's length. */
  lemma {:induction false} TrailingZeroLines(path: seq<Line>, j: nat, k: nat)
    requires j < k <= |path|
    requires forall i :: j < i < |path| ==> path[i].length == 0.0
    ensures PrefixLength(path, k) == PrefixLength(path, j + 1)
    decreases k - j
  {
    if k > j + 1 {
      PrefixLengthStep(path, k - 1);
      TrailingZeroLines(path, j, k - 1);
    }
  }

  /** When every line after `j` has length zero, the whole path is as long as
      its prefix through line `j`. */
  lemma LengthThroughLastPositive(path: seq<Line>, j: nat)
    requires j < |path|
    requires forall i :: j < i < |path| ==> path[i].length == 0.0
    ensures PathLength(path) == PrefixLength(path, j + 1)
  {
    PrefixLengthEnds(path);
    TrailingZeroLines(path, j, |path|);
  }
}
