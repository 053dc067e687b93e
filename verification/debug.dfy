/** The arithmetic inside the debugging helpers of
    mousetracking/algorithm/debug.py: the subplot grid and shared colour
    range of `show_image`, and the walk along a video's filter chain in
    `print_filter_chain`. Drawing and printing are not modelled. */
module Debug {
  import opened Wrappers

  // ---------------------------------------------------------------------------
  // Subplot grid
  // ---------------------------------------------------------------------------

  /** The number of subplot rows for `n` images. */
  function NumRows(n: nat): (r: nat)
    ensures 1 <= r <= 3
    ensures r == 1 <==> n <= 2
    ensures r == 3 <==> n > 6
  {
    if n <= 2 then 1
    else if n <= 6 then 2
    else 3
  }

  /** `int(np.ceil(x))` for the non-negative quotients that occur here: the
      least integer not below `x`. */
  function Ceil(x: real): (r: int)
    ensures r as real >= x
    ensures (r - 1) as real < x
  {
    -((-x).Floor)
  }

  /** The number of subplot columns: `n / num_rows` in true division (the
      module imports `division` from `__future__`), rounded up. */
  function NumCols(n: nat): (r: int)
    ensures 0 <= r <= n
    ensures n > 0 ==> r >= 1
  {
    var q := n as real / NumRows(n) as real;
    assert 0.0 <= q <= n as real;
    Ceil(q)
  }

  /** The rounded-up true quotient is the integer ceiling division. */
  lemma NumColsIsCeilDiv(n: nat)
    ensures NumCols(n) == (n + NumRows(n) - 1) / NumRows(n)
  {
    var rows := NumRows(n);
    var q := (n + rows - 1) / rows;
    var x := n as real / rows as real;
    var c := NumCols(n);
    assert c == Ceil(x);
    // q is the least integer with q * rows >= n
    assert q * rows >= n && (q - 1) * rows < n;
    if rows == 1 {
      assert c == n;
    } else if rows == 2 {
      assert x * 2.0 == n as real;
      assert c as real * 2.0 >= n as real && (c - 1) as real * 2.0 < n as real;
      assert c * 2 >= n && (c - 1) * 2 < n;
    } else {
      assert x * 3.0 == n as real;
      assert c as real * 3.0 >= n as real && (c - 1) as real * 3.0 < n as real;
      assert c * 3 >= n && (c - 1) * 3 < n;
    }
  }

  /** The one-based subplot index of the `k`-th image. */
  function SubplotIndex(k: nat): nat {
    k + 1
  }

  /** The grid has a cell for every image: every subplot index handed to
      `plt.subplot` lies in `1 .. num_rows * num_cols`. */
  lemma GridHoldsAllImages(n: nat)
    ensures NumCols(n) >= 0
    ensures NumRows(n) * NumCols(n) >= n
    ensures forall k :: 0 <= k < n ==> 1 <= SubplotIndex(k) <= NumRows(n) * NumCols(n)
  {
    NumColsIsCeilDiv(n);
    var rows, cols := NumRows(n), NumCols(n);
    assert cols * rows >= n;
  }

  /** The grid is no larger than it needs to be: for at least one image,
      dropping the last column would leave too few cells, and so would
      dropping the last row. */
  lemma GridIsTight(n: nat)
    requires n >= 1
    ensures NumRows(n) * (NumCols(n) - 1) < n
    ensures (NumRows(n) - 1) * NumCols(n) < n
  {
    NumColsIsCeilDiv(n);
    var rows, cols := NumRows(n), NumCols(n);
    assert (cols - 1) * rows < n;
    if rows == 2 {
      assert cols >= 2;
    } else if rows == 3 {
      assert cols >= 3;
    }
  }

  // ---------------------------------------------------------------------------
  // Shared colour range
  // ---------------------------------------------------------------------------

  /** A pixel bound, with numpy's infinities as the start of the fold. */
  datatype Bound = NegInf | Finite(v: real) | PosInf

  predicate AtMost(a: Bound, b: Bound) {
    match (a, b)
    case (NegInf, _) => true
    case (_, PosInf) => true
    case (Finite(x), Finite(y)) => x <= y
    case _ => false
  }

  function Lower(a: Bound, b: Bound): (r: Bound)
    ensures AtMost(r, a) && AtMost(r, b)
    ensures r == a || r == b
  {
    if AtMost(a, b) then a else b
  }

  function Upper(a: Bound, b: Bound): (r: Bound)
    ensures AtMost(a, r) && AtMost(b, r)
    ensures r == a || r == b
  {
    if AtMost(a, b) then b else a
  }

  /** `image.min()` of a non-empty image, its pixels listed in any order. */
  function ImageMin(image: seq<real>): (r: real)
    requires |image| > 0
    ensures forall i :: 0 <= i < |image| ==> r <= image[i]
    ensures r in image
  {
    if |image| == 1 then image[0]
    else
      var m := ImageMin(image[..|image| - 1]);
      if m <= image[|image| - 1] then m else image[|image| - 1]
  }

  /** `image.max()` of a non-empty image. */
  function ImageMax(image: seq<real>): (r: real)
    requires |image| > 0
    ensures forall i :: 0 <= i < |image| ==> image[i] <= r
    ensures r in image
  {
    if |image| == 1 then image[0]
    else
      var m := ImageMax(image[..|image| - 1]);
      if image[|image| - 1] <= m then m else image[|image| - 1]
  }

  /** Some image holds the pixel value `v`. */
  ghost predicate IsPixel(images: seq<seq<real>>, v: real) {
    exists i :: 0 <= i < |images| && v in images[i]
  }

  /** The `vmin` and `vmax` handed to `plt.imshow`; `None` leaves the
      scale to matplotlib. */
  datatype ColorRange = ColorRange(vmin: Option<Bound>, vmax: Option<Bound>)

  /** The colour range of `show_image`. Without `equalize_colors` both
      bounds are `None`. With it, the bounds start at `inf` and `-inf` and
      fold in the minimum and maximum of every image in turn; numpy's
      `min` and `max` of an empty image raise `ValueError`. */
  method EqualizeColors(images: seq<seq<real>>, equalize: bool)
    returns (r: Result<ColorRange, PyException>)
    ensures !equalize ==> r == Success(ColorRange(None, None))
    ensures equalize ==> (r.Failure? <==> exists i :: 0 <= i < |images| && |images[i]| == 0)
    ensures r.Failure? ==> r.error == ValueError
    ensures equalize && r.Success? ==> r.value.vmin.Some? && r.value.vmax.Some?
    ensures equalize && r.Success? ==> forall i, j :: 0 <= i < |images| && 0 <= j < |images[i]| ==>
      AtMost(r.value.vmin.value, Finite(images[i][j])) && AtMost(Finite(images[i][j]), r.value.vmax.value)
    ensures equalize && r.Success? && |images| == 0 ==> r.value == ColorRange(Some(PosInf), Some(NegInf))
    ensures equalize && r.Success? && |images| > 0 ==>
      && r.value.vmin.value.Finite? && IsPixel(images, r.value.vmin.value.v)
      && r.value.vmax.value.Finite? && IsPixel(images, r.value.vmax.value.v)
      && AtMost(r.value.vmin.value, r.value.vmax.value)
  {
    if !equalize {
      return Success(ColorRange(None, None));
    }
    var vmin, vmax := PosInf, NegInf;
    var k := 0;
    while k < |images|
      invariant 0 <= k <= |images|
      invariant forall i :: 0 <= i < k ==> |images[i]| > 0
      invariant forall i, j :: 0 <= i < k && 0 <= j < |images[i]| ==>
        AtMost(vmin, Finite(images[i][j])) && AtMost(Finite(images[i][j]), vmax)
      invariant k == 0 ==> vmin == PosInf && vmax == NegInf
      invariant k > 0 ==> vmin.Finite? && IsPixel(images[..k], vmin.v)
      invariant k > 0 ==> vmax.Finite? && IsPixel(images[..k], vmax.v)
    {
      if |images[k]| == 0 {
        return Failure(ValueError);
      }
      var lo, hi := ImageMin(images[k]), ImageMax(images[k]);
      assert images[..k + 1][k] == images[k];
      assert forall i :: 0 <= i < k ==> images[..k + 1][i] == images[..k][i];
      vmin := Lower(vmin, Finite(lo));
      vmax := Upper(vmax, Finite(hi));
      k := k + 1;
    }
    assert images[..k] == images;
    if |images| > 0 {
      var i :| 0 <= i < |images| && vmin.v in images[i];
      var j :| 0 <= j < |images[i]| && images[i][j] == vmin.v;
      assert AtMost(vmin, Finite(images[i][j])) && AtMost(Finite(images[i][j]), vmax);
    }
    return Success(ColorRange(Some(vmin), Some(vmax)));
  }

  // ---------------------------------------------------------------------------
  // Filter chain
  // ---------------------------------------------------------------------------

  /** A video, or a filter reading from its `_source`; a video without a
      source ends the chain. `name` stands for `str(video)`. */
  datatype Video = Video(name: string, source: Option<Video>)

  /** The number of objects on the chain from `v` down. */
  function Depth(v: Video): (r: nat)
    ensures r >= 1
  {
    match v.source
    case None => 1
    case Some(s) => 1 + Depth(s)
  }

  /** The object `i` steps down the chain from `v`. */
  function Ancestor(v: Video, i: nat): Video
    requires i < Depth(v)
  {
    if i == 0 then v else Ancestor(v.source.value, i - 1)
  }

  /** The lines `print_filter_chain` prints: `str(video)`, then the lines
      of its source's chain, until an object without `_source` ends the
      recursion. */
  function FilterChain(v: Video): (r: seq<string>)
    ensures |r| == Depth(v)
    ensures r[0] == v.name
  {
    match v.source
    case None => [v.name]
    case Some(s) => [v.name] + FilterChain(s)
  }

  /** The chain prints one line per object, each object's name at its
      distance from `v`, starting at `v` itself and ending at the one
      object that has no source. */
  lemma {:induction false} FilterChainVisitsInOrder(v: Video)
    ensures |FilterChain(v)| == Depth(v)
    ensures FilterChain(v)[0] == v.name
    ensures forall i :: 0 <= i < Depth(v) ==> FilterChain(v)[i] == Ancestor(v, i).name
    ensures Ancestor(v, Depth(v) - 1).source.None?
    ensures forall i :: 0 <= i < Depth(v) - 1 ==> Ancestor(v, i).source.Some?
  {
    match v.source
    case None =>
    case Some(s) =>
      FilterChainVisitsInOrder(s);
      forall i | 1 <= i < Depth(v)
        ensures FilterChain(v)[i] == Ancestor(v, i).name
      {
        assert FilterChain(v)[i] == FilterChain(s)[i - 1];
      }
  }
}
