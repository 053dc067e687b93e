/** The `Burrow` record of mousetracking/burrow_finder.py: an outline of
    integer pixel points and the frame it was found in, with its flat-array
    encoding (`to_array` / `from_array`). */
module Burrows {
  import opened Wrappers

  datatype Point = Point(x: int, y: int)

  /** `time` is `None` when the burrow was built without a frame index. */
  datatype Burrow = Burrow(outline: seq<Point>, time: Option<int>)

  /** `len(burrow)`: the number of outline points. */
  function Length(b: Burrow): (r: nat)
    ensures r == 0 <==> b.outline == []
  {
    |b.outline|
  }

  /** A two-dimensional integer array: every row has the same width. */
  ghost predicate IsMatrix(data: seq<seq<int>>) {
    forall i, j :: 0 <= i < j < |data| ==> |data[i]| == |data[j]|
  }

  /** The array row `[time, x, y]` of one outline point. */
  function Row(time: int, p: Point): seq<int> {
    [time, p.x, p.y]
  }

  /** `to_array`: one row per outline point, the time in column 0 and the
      point in columns 1 and 2. For an empty outline the time column has no
      cells, so adding the time (even `None`) succeeds, but `np.hstack`
      cannot join that two-dimensional column to the one-dimensional empty
      outline: a `ValueError`. Otherwise adding `None` to the integer time
      column is a `TypeError`. */
  function ToArray(b: Burrow): (r: Result<seq<seq<int>>, PyException>)
    ensures r.Success? <==> b.time.Some? && |b.outline| > 0
    ensures |b.outline| == 0 ==> r == Failure(ValueError)
    ensures |b.outline| > 0 && b.time.None? ==> r == Failure(TypeError)
    ensures r.Success? ==> IsMatrix(r.value) && |r.value| == Length(b)
    ensures r.Success? ==> forall i :: 0 <= i < |r.value| ==>
      |r.value[i]| == 3 && r.value[i][0] == b.time.value &&
      Point(r.value[i][1], r.value[i][2]) == b.outline[i]
  {
    if |b.outline| == 0 then Failure(ValueError)
    else if b.time.None? then Failure(TypeError)
    else Success(seq(|b.outline|, i requires 0 <= i < |b.outline| => Row(b.time.value, b.outline[i])))
  }

  // ---------------------------------------------------------------------------
  // from_array as written: outline = data[1:, :], time = data[0, 0]
  // ---------------------------------------------------------------------------

  /** What `from_array` builds: the time from the first cell and, as the
      outline, the array rows after the first, every column included. */
  datatype ArrayBurrow = ArrayBurrow(outline: seq<seq<int>>, time: int)

  /** `from_array` as written. Reading `data[0, 0]` from an array with no
      rows or no columns is an `IndexError`. */
  function FromArrayAsWritten(data: seq<seq<int>>): (r: Result<ArrayBurrow, PyException>)
    requires IsMatrix(data)
    ensures r.Success? <==> |data| > 0 && |data[0]| > 0
    ensures r.Success? ==> r.value.time == data[0][0] && |r.value.outline| == |data| - 1
    ensures r.Success? ==> forall i :: 0 <= i < |r.value.outline| ==> r.value.outline[i] == data[i + 1]
  {
    if |data| == 0 || |data[0]| == 0 then Failure(IndexError)
    else Success(ArrayBurrow(data[1..], data[0][0]))
  }

  /** Decoding the encoding of a burrow with the code as written keeps the
      time but drops the first outline point and keeps the time column in
      every remaining row: the two functions are not inverses. */
  lemma AsWrittenDropsFirstPoint(b: Burrow)
    requires b.time.Some? && |b.outline| > 0
    ensures ToArray(b).Success? && IsMatrix(ToArray(b).value)
    ensures var a := FromArrayAsWritten(ToArray(b).value);
      && a.Success?
      && a.value.time == b.time.value
      && |a.value.outline| == Length(b) - 1
      && forall i :: 0 <= i < |a.value.outline| ==> a.value.outline[i] == Row(b.time.value, b.outline[i + 1])
  {
  }

  /** A concrete witness: a two-point burrow at frame 7 comes back with a
      single three-column row. */
  lemma AsWrittenCounterexample()
    ensures var b := Burrow([Point(1, 2), Point(3, 4)], Some(7));
      && ToArray(b) == Success([[7, 1, 2], [7, 3, 4]])
      && FromArrayAsWritten([[7, 1, 2], [7, 3, 4]]) == Success(ArrayBurrow([[7, 3, 4]], 7))
  {
    var b := Burrow([Point(1, 2), Point(3, 4)], Some(7));
    assert ToArray(b).value == [[7, 1, 2], [7, 3, 4]];
    assert FromArrayAsWritten([[7, 1, 2], [7, 3, 4]]).value == ArrayBurrow([[7, 3, 4]], 7);
  }

  // ---------------------------------------------------------------------------
  // from_array as intended: outline = data[:, 1:], time = data[0, 0]
  // ---------------------------------------------------------------------------

  /** The decoder that inverts `to_array`: every row is a point in columns 1
      and 2, the time is read from the first cell. An array with no rows is
      an `IndexError`; rows that are not `[time, x, y]` triples do not hold
      points, a `ValueError`. */
  function FromArray(data: seq<seq<int>>): (r: Result<Burrow, PyException>)
    requires IsMatrix(data)
    ensures r.Success? <==> |data| > 0 && |data[0]| == 3
    ensures r.Success? ==> r.value.time == Some(data[0][0]) && |r.value.outline| == |data|
    ensures r.Success? ==> forall i :: 0 <= i < |data| ==>
      r.value.outline[i] == Point(data[i][1], data[i][2])
  {
    if |data| == 0 then Failure(IndexError)
    else if |data[0]| != 3 then Failure(ValueError)
    else Success(Burrow(seq(|data|, i requires 0 <= i < |data| => Point(data[i][1], data[i][2])),
                        Some(data[0][0])))
  }

  /** Encoding then decoding gives back every burrow that can be encoded. */
  lemma FromArrayToArray(b: Burrow)
    requires b.time.Some? && |b.outline| > 0
    ensures ToArray(b).Success?
    ensures FromArray(ToArray(b).value).Success?
    ensures FromArray(ToArray(b).value).value == b
  {
    var back := FromArray(ToArray(b).value).value;
    assert back.outline == b.outline;
  }

  /** Decoding then encoding gives back every table whose time column is
      constant, which is every table that `ToArray` produces. */
  lemma ToArrayFromArray(data: seq<seq<int>>)
    requires IsMatrix(data) && |data| > 0 && |data[0]| == 3
    requires forall i :: 0 <= i < |data| ==> data[i][0] == data[0][0]
    ensures FromArray(data).Success?
    ensures ToArray(FromArray(data).value).Success?
    ensures ToArray(FromArray(data).value).value == data
  {
    var back := ToArray(FromArray(data).value).value;
    assert |back| == |data|;
    forall i | 0 <= i < |data|
      ensures back[i] == data[i]
    {
      assert |data[i]| == |data[0]|;
    }
  }
}
