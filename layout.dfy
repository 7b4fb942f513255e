/** Layout descriptors of one image: the aspect ratio and the orientation it
    falls in, the share of near-white pixels, and the cells of a 3 x 3 grid
    that are dark enough to count as focal. The grayscale conversion and the
    blur are outside the model; their result, a height x width array of
    brightness values, is the input here. */
module Layout {
  import opened Collections
  import opened Pipeline

  // ---------------------------------------------------------------------
  // Orientation
  // ---------------------------------------------------------------------

  const Landscape := "landscape"
  const Portrait := "portrait"
  const Square := "square"

  /** `_orientation_from_ratio(ratio)`: both thresholds are strict, so exactly
      1.15 and exactly 0.85 are square. */
  function Orientation(ratio: real): (o: string)
    ensures o == Landscape <==> ratio > 1.15
    ensures o == Portrait <==> ratio < 0.85
    ensures o == Square <==> 0.85 <= ratio <= 1.15
  {
    if ratio > 1.15 then Landscape
    else if ratio < 0.85 then Portrait
    else Square
  }

  /** `width / height if height else 1.0` */
  function AspectRatio(width: nat, height: nat): (r: real)
    ensures height == 0 ==> r == 1.0
    ensures height > 0 ==> r * height as real == width as real
  {
    if height > 0 then width as real / height as real else 1.0
  }

  /** The orientation of a `width x height` image in integers: landscape
      exactly when `width / height > 23 / 20`, portrait exactly when
      `width / height < 17 / 20`. */
  lemma OrientationOfShape(width: nat, height: nat)
    requires height > 0
    ensures Orientation(AspectRatio(width, height)) == Landscape <==> 20 * width > 23 * height
    ensures Orientation(AspectRatio(width, height)) == Portrait <==> 20 * width < 17 * height
  {
    var r, h, w := AspectRatio(width, height), height as real, width as real;
    ScaleProduct(r, 1.15, h, w);
    ScaleProduct(r, 0.85, h, w);
  }

  /** With `w == r * h` and `h > 0`, comparing `r` with `c` is comparing
      `w` with `c * h`. */
  lemma ScaleProduct(r: real, c: real, h: real, w: real)
    requires h > 0.0 && r * h == w
    ensures r > c <==> w > c * h
    ensures r < c <==> w < c * h
  {
    ScaleStrict(r, c, h);
    ScaleStrict(c, r, h);
  }

  /** Multiplying by a positive number keeps a strict order. */
  lemma ScaleStrict(a: real, b: real, h: real)
    requires h > 0.0
    ensures a > b <==> a * h > b * h
  {
    if a > b {
      assert (a - b) * h > 0.0;
    } else {
      assert (b - a) * h >= 0.0;
    }
  }

  /** A square image, and an image with no rows, is square. */
  lemma SquareShapes(n: nat)
    ensures Orientation(AspectRatio(n, n)) == Square || n == 0
    ensures Orientation(AspectRatio(n, 0)) == Square
  {
  }

  /** The ratio grows with the width: a wider image of the same height is
      never less landscape. */
  lemma AspectRatioMonotone(w1: nat, w2: nat, height: nat)
    requires w1 <= w2 && height > 0
    ensures AspectRatio(w1, height) <= AspectRatio(w2, height)
  {
  }

  // ---------------------------------------------------------------------
  // The brightness array
  // ---------------------------------------------------------------------

  /** A numpy array of shape `(|arr|, width)`. */
  predicate Rectangular(arr: seq<seq<real>>, width: nat) {
    forall y :: 0 <= y < |arr| ==> |arr[y]| == width
  }

  /** The number of entries of a row that are at least 0.9. */
  function WhiteInRow(row: seq<real>): (n: nat)
    ensures n <= |row|
  {
    if row == [] then 0 else WhiteInRow(row[..|row| - 1]) + (if row[|row| - 1] >= 0.9 then 1 else 0)
  }

  /** The number of entries of the array that are at least 0.9. */
  function WhiteCount(arr: seq<seq<real>>): nat {
    if arr == [] then 0 else WhiteCount(arr[..|arr| - 1]) + WhiteInRow(arr[|arr| - 1])
  }

  /** `arr.size` */
  function Size(arr: seq<seq<real>>): nat {
    if arr == [] then 0 else Size(arr[..|arr| - 1]) + |arr[|arr| - 1]|
  }

  lemma {:induction false} WhiteCountBound(arr: seq<seq<real>>)
    ensures WhiteCount(arr) <= Size(arr)
  {
    if arr != [] {
      WhiteCountBound(arr[..|arr| - 1]);
    }
  }

  lemma {:induction false} SizeOfRectangle(arr: seq<seq<real>>, width: nat)
    requires Rectangular(arr, width)
    ensures Size(arr) == |arr| * width
  {
    if arr != [] {
      var front := arr[..|arr| - 1];
      assert Rectangular(front, width) by {
        forall y | 0 <= y < |front| ensures |front[y]| == width {
          assert front[y] == arr[y];
        }
      }
      SizeOfRectangle(front, width);
      assert |arr| * width == (|arr| - 1) * width + width;
    }
  }

  /** `float(np.mean(arr >= 0.9))`, for an array with at least one entry. */
  function WhitespaceRatio(arr: seq<seq<real>>): real
    requires Size(arr) > 0
  {
    WhiteCount(arr) as real / Size(arr) as real
  }

  /** The whitespace ratio is a fraction: between 0 and 1, 0 exactly when no
      entry reaches 0.9 and 1 exactly when every entry does. */
  lemma WhitespaceRatioBounds(arr: seq<seq<real>>)
    requires Size(arr) > 0
    ensures 0.0 <= WhitespaceRatio(arr) <= 1.0
    ensures WhitespaceRatio(arr) == 0.0 <==> WhiteCount(arr) == 0
    ensures WhitespaceRatio(arr) == 1.0 <==> WhiteCount(arr) == Size(arr)
  {
    WhiteCountBound(arr);
    FractionBounds(WhiteCount(arr), Size(arr));
  }

  lemma FractionBounds(c: nat, n: nat)
    requires 0 < n && c <= n
    ensures 0.0 <= c as real / n as real <= 1.0
    ensures c as real / n as real == 0.0 <==> c == 0
    ensures c as real / n as real == 1.0 <==> c == n
  {
    var q := c as real / n as real;
    assert q * n as real == c as real;
  }

  // ---------------------------------------------------------------------
  // The 3 x 3 grid
  // ---------------------------------------------------------------------

  /** `GRID_REGIONS`, row by row. */
  const GridRegions: seq<string> := [
    "top-left", "top-center", "top-right",
    "middle-left", "center", "middle-right",
    "bottom-left", "bottom-center", "bottom-right"
  ]

  lemma GridRegionsDistinct()
    ensures |GridRegions| == 9 && NoDup(GridRegions)
  {
  }

  /** The first index of band `k` (a row band of the height or a column
      band of the width): `k * (n // 3)`. */
  function BandStart(k: nat, n: nat): nat
    requires k < 3
  {
    k * (n / 3)
  }

  /** One past the last index of band `k`: the last band runs to `n`. */
  function BandEnd(k: nat, n: nat): nat
    requires k < 3
  {
    if k < 2 then (k + 1) * (n / 3) else n
  }

  /** Bands 0 and 1 have `n // 3` indices and band 2 the rest. */
  lemma BandSizes(k: nat, n: nat)
    requires k < 3
    ensures BandStart(k, n) <= BandEnd(k, n) <= n
    ensures k < 2 ==> BandEnd(k, n) - BandStart(k, n) == n / 3
    ensures k == 2 ==> BandEnd(k, n) - BandStart(k, n) == n - 2 * (n / 3)
  {
    if k == 0 {
    } else if k == 1 {
    } else {
      assert BandStart(k, n) == 2 * (n / 3);
    }
  }

  /** The bands are consecutive: each starts where the previous one ends. */
  lemma BandsAdjacent(n: nat)
    ensures BandStart(0, n) == 0 && BandEnd(2, n) == n
    ensures BandEnd(0, n) == BandStart(1, n) && BandEnd(1, n) == BandStart(2, n)
  {
    assert BandStart(1, n) == n / 3;
    assert BandEnd(1, n) == 2 * (n / 3) == BandStart(2, n);
  }

  predicate InBand(i: nat, k: nat, n: nat)
    requires k < 3
  {
    BandStart(k, n) <= i < BandEnd(k, n)
  }

  /** Every index below `n` lies in exactly one band. */
  lemma BandsPartition(i: nat, n: nat)
    requires i < n
    ensures exists k :: 0 <= k < 3 && InBand(i, k, n)
    ensures forall k, l :: 0 <= k < 3 && 0 <= l < 3 && InBand(i, k, n) && InBand(i, l, n) ==> k == l
  {
    BandsAdjacent(n);
    BandSizes(0, n);
    BandSizes(1, n);
    BandSizes(2, n);
    if i < BandEnd(0, n) {
      assert InBand(i, 0, n);
    } else if i < BandEnd(1, n) {
      assert InBand(i, 1, n);
    } else {
      assert InBand(i, 2, n);
    }
  }

  predicate InCell(y: nat, x: nat, idx: nat, height: nat, width: nat)
    requires idx < 9
  {
    InBand(y, idx / 3, height) && InBand(x, idx % 3, width)
  }

  /** The nine cells partition the array: every pixel lies in exactly one. */
  lemma CellsPartition(y: nat, x: nat, height: nat, width: nat)
    requires y < height && x < width
    ensures exists idx :: 0 <= idx < 9 && InCell(y, x, idx, height, width)
    ensures forall i, j :: 0 <= i < 9 && 0 <= j < 9 && InCell(y, x, i, height, width) && InCell(y, x, j, height, width) ==> i == j
  {
    BandsPartition(y, height);
    BandsPartition(x, width);
    var r :| 0 <= r < 3 && InBand(y, r, height);
    var c :| 0 <= c < 3 && InBand(x, c, width);
    assert InCell(y, x, 3 * r + c, height, width);
    forall i, j | 0 <= i < 9 && 0 <= j < 9 && InCell(y, x, i, height, width) && InCell(y, x, j, height, width)
      ensures i == j
    {
      assert i / 3 == j / 3 && i % 3 == j % 3;
    }
  }

  /** `arr[y0:y1, x0:x1]`, read row by row. */
  function CellValues(arr: seq<seq<real>>, width: nat, y0: nat, y1: nat, x0: nat, x1: nat): seq<real>
    requires Rectangular(arr, width) && y0 <= y1 <= |arr| && x0 <= x1 <= width
    decreases y1 - y0
  {
    if y1 == y0 then [] else CellValues(arr, width, y0, y1 - 1, x0, x1) + arr[y1 - 1][x0..x1]
  }

  /** `cell.size == 0` exactly when the cell has no rows or no columns. */
  lemma {:induction false} CellEmptyIff(arr: seq<seq<real>>, width: nat, y0: nat, y1: nat, x0: nat, x1: nat)
    requires Rectangular(arr, width) && y0 <= y1 <= |arr| && x0 <= x1 <= width
    ensures CellValues(arr, width, y0, y1, x0, x1) == [] <==> y0 == y1 || x0 == x1
    decreases y1 - y0
  {
    if y1 > y0 {
      CellEmptyIff(arr, width, y0, y1 - 1, x0, x1);
    }
  }

  /** The values of cell `idx` of the grid. */
  function Cell(arr: seq<seq<real>>, width: nat, idx: nat): seq<real>
    requires Rectangular(arr, width) && idx < 9
  {
    BandSizes(idx / 3, |arr|);
    BandSizes(idx % 3, width);
    CellValues(arr, width, BandStart(idx / 3, |arr|), BandEnd(idx / 3, |arr|),
                           BandStart(idx % 3, width), BandEnd(idx % 3, width))
  }

  function Total(vs: seq<real>): real {
    if vs == [] then 0.0 else Total(vs[..|vs| - 1]) + vs[|vs| - 1]
  }

  /** `float(np.mean(cell))` for a non-empty cell. */
  function Mean(vs: seq<real>): real
    requires vs != []
  {
    Total(vs) / |vs| as real
  }

  /** `darkness = 1.0 - mean(cell)` and `darkness > 0.35`, for a non-empty cell. */
  predicate IsFocal(arr: seq<seq<real>>, width: nat, idx: nat)
    requires Rectangular(arr, width) && idx < 9
  {
    var cell := Cell(arr, width, idx);
    cell != [] && 1.0 - Mean(cell) > 0.35
  }

  /** `1 - mean > 0.35` exactly when the values average strictly below 0.65. */
  lemma DarkIffMeanBelow(vs: seq<real>)
    requires vs != []
    ensures 1.0 - Mean(vs) > 0.35 <==> Total(vs) < 0.65 * |vs| as real
  {
    var n := |vs| as real;
    assert Mean(vs) * n == Total(vs);
  }

  /** A cell is focal exactly when it is non-empty and its values average
      strictly below 0.65. */
  lemma FocalIffMean(arr: seq<seq<real>>, width: nat, idx: nat)
    requires Rectangular(arr, width) && idx < 9
    ensures IsFocal(arr, width, idx) <==>
            var cell := Cell(arr, width, idx);
            cell != [] && Total(cell) < 0.65 * |cell| as real
  {
    var cell := Cell(arr, width, idx);
    if cell != [] {
      DarkIffMeanBelow(cell);
    }
  }

  /** Whether each of the nine cells is focal, in grid order; which cells
      those are is stated by `FocalIffMean`. */
  function FocalFlags(arr: seq<seq<real>>, width: nat): (flags: seq<bool>)
    requires Rectangular(arr, width)
    ensures |flags| == 9
  {
    seq(9, idx requires 0 <= idx < 9 && Rectangular(arr, width) => IsFocal(arr, width, idx))
  }

  /** The names among the first `k` whose flag is set, in order. */
  function Selected<T>(flags: seq<bool>, names: seq<T>, k: nat): seq<T>
    requires |flags| == |names| && k <= |names|
  {
    if k == 0 then []
    else Selected(flags, names, k - 1) + (if flags[k - 1] then [names[k - 1]] else [])
  }

  /** The positions among the first `k` whose flag is set, ascending. */
  function SelectedIndices(flags: seq<bool>, k: nat): seq<nat>
    requires k <= |flags|
  {
    if k == 0 then []
    else SelectedIndices(flags, k - 1) + (if flags[k - 1] then [k - 1] else [])
  }

  /** `_resolve_focal_regions(arr)` */
  method ResolveFocalRegions(arr: seq<seq<real>>, width: nat) returns (regions: seq<string>)
    requires Rectangular(arr, width)
    ensures regions == Selected(FocalFlags(arr, width), GridRegions, 9)
  {
    ghost var flags := FocalFlags(arr, width);
    GridRegionsDistinct();
    regions := [];
    for idx := 0 to 9
      invariant regions == Selected(flags, GridRegions, idx)
    {
      var focal := CellIsFocal(arr, width, idx);
      if focal {
        regions := regions + [GridRegions[idx]];
      }
    }
  }

  /** One cell of the loop: an empty cell is skipped, otherwise it is focal
      when its darkness is above 0.35. */
  method CellIsFocal(arr: seq<seq<real>>, width: nat, idx: nat) returns (focal: bool)
    requires Rectangular(arr, width) && idx < 9
    ensures focal == IsFocal(arr, width, idx)
  {
    var height := |arr|;
    var thirdH, thirdW := height / 3, width / 3;
    var row, col := idx / 3, idx % 3;
    var y0 := row * thirdH;
    var y1 := if row < 2 then (row + 1) * thirdH else height;
    var x0 := col * thirdW;
    var x1 := if col < 2 then (col + 1) * thirdW else width;
    BandSizes(row, height);
    BandSizes(col, width);
    var cell := CellValues(arr, width, y0, y1, x0, x1);
    if |cell| == 0 {
      return false;
    }
    var darkness := 1.0 - Mean(cell);
    focal := darkness > 0.35;
  }

  // ---------------------------------------------------------------------
  // Properties of the focal regions
  // ---------------------------------------------------------------------

  /** The selected names are the names at strictly increasing positions (a
      subsequence of `names`, in its order), and a position is among them
      exactly when its flag is set. */
  lemma {:induction false} SelectedProps<T>(flags: seq<bool>, names: seq<T>, k: nat)
    requires |flags| == |names| && k <= |names|
    ensures var r, ix := Selected(flags, names, k), SelectedIndices(flags, k);
            |r| == |ix| &&
            (forall i :: 0 <= i < |ix| ==> ix[i] < k && r[i] == names[ix[i]]) &&
            (forall i, j :: 0 <= i < j < |ix| ==> ix[i] < ix[j]) &&
            (forall idx: nat :: idx in ix <==> idx < k && flags[idx])
  {
    if k > 0 {
      SelectedProps(flags, names, k - 1);
      var r, ix := Selected(flags, names, k - 1), SelectedIndices(flags, k - 1);
      if flags[k - 1] {
        SelectedStep(r, ix, names, k);
      }
    }
  }

  /** Appending position `k - 1` keeps the indices ascending and matching. */
  lemma SelectedStep<T>(r: seq<T>, ix: seq<nat>, names: seq<T>, k: nat)
    requires 0 < k <= |names| && |r| == |ix|
    requires forall i :: 0 <= i < |ix| ==> ix[i] < k - 1 && r[i] == names[ix[i]]
    requires forall i, j :: 0 <= i < j < |ix| ==> ix[i] < ix[j]
    ensures var r', ix' := r + [names[k - 1]], ix + [k - 1];
            (forall i :: 0 <= i < |ix'| ==> ix'[i] < k && r'[i] == names[ix'[i]]) &&
            (forall i, j :: 0 <= i < j < |ix'| ==> ix'[i] < ix'[j])
  {
  }

  /** With distinct names, no name is selected twice, and a name is selected
      exactly when its flag is set. */
  lemma SelectedNames<T>(flags: seq<bool>, names: seq<T>)
    requires |flags| == |names| && NoDup(names)
    ensures NoDup(Selected(flags, names, |names|))
    ensures forall idx :: 0 <= idx < |names| ==> (names[idx] in Selected(flags, names, |names|) <==> flags[idx])
    ensures forall name :: name in Selected(flags, names, |names|) ==> name in names
  {
    SelectedDistinct(flags, names);
    SelectedIff(flags, names);
  }

  lemma SelectedDistinct<T>(flags: seq<bool>, names: seq<T>)
    requires |flags| == |names| && NoDup(names)
    ensures NoDup(Selected(flags, names, |names|))
  {
    SelectedProps(flags, names, |names|);
    var r, ix := Selected(flags, names, |names|), SelectedIndices(flags, |names|);
    forall i, j | 0 <= i < j < |r| ensures r[i] != r[j] {
      assert ix[i] < ix[j];
    }
  }

  lemma SelectedIff<T>(flags: seq<bool>, names: seq<T>)
    requires |flags| == |names| && NoDup(names)
    ensures forall idx :: 0 <= idx < |names| ==> (names[idx] in Selected(flags, names, |names|) <==> flags[idx])
    ensures forall name :: name in Selected(flags, names, |names|) ==> name in names
  {
    SelectedProps(flags, names, |names|);
    var r, ix := Selected(flags, names, |names|), SelectedIndices(flags, |names|);
    forall idx | 0 <= idx < |names| ensures names[idx] in r <==> flags[idx] {
      if names[idx] in r {
        var i :| 0 <= i < |r| && r[i] == names[idx];
        assert ix[i] == idx;
      }
      if flags[idx] {
        assert idx in ix;
        var i :| 0 <= i < |ix| && ix[i] == idx;
        assert r[i] == names[idx];
      }
    }
    forall name | name in r ensures name in names {
      var i :| 0 <= i < |r| && r[i] == name;
    }
  }

  /** The focal regions are distinct, and a grid label is among them exactly
      when its cell is non-empty with darkness above 0.35. */
  lemma FocalRegionsIff(arr: seq<seq<real>>, width: nat)
    requires Rectangular(arr, width)
    ensures NoDup(Selected(FocalFlags(arr, width), GridRegions, 9))
    ensures forall idx :: 0 <= idx < 9 ==>
              (GridRegions[idx] in Selected(FocalFlags(arr, width), GridRegions, 9) <==> IsFocal(arr, width, idx))
  {
    GridRegionsDistinct();
    SelectedNames(FocalFlags(arr, width), GridRegions);
  }

  /** In an image less than three rows high the top and middle bands are
      empty, so those cells are never focal. */
  lemma ShortImageUpperCells(arr: seq<seq<real>>, width: nat, idx: nat)
    requires Rectangular(arr, width) && |arr| < 3 && idx < 6
    ensures !IsFocal(arr, width, idx)
  {
    BandSizes(idx / 3, |arr|);
    BandSizes(idx % 3, width);
    CellEmptyIff(arr, width, BandStart(idx / 3, |arr|), BandEnd(idx / 3, |arr|),
                             BandStart(idx % 3, width), BandEnd(idx % 3, width));
  }

  /** An image less than three rows high can only have bottom-row focal
      regions. */
  lemma ShortImageBottomOnly(arr: seq<seq<real>>, width: nat)
    requires Rectangular(arr, width) && |arr| < 3
    ensures forall name :: name in Selected(FocalFlags(arr, width), GridRegions, 9) ==> name in GridRegions[6..]
  {
    var flags := FocalFlags(arr, width);
    GridRegionsDistinct();
    SelectedProps(flags, GridRegions, 9);
    var r, ix := Selected(flags, GridRegions, 9), SelectedIndices(flags, 9);
    forall name | name in r ensures name in GridRegions[6..] {
      var i :| 0 <= i < |r| && r[i] == name;
      var idx := ix[i];
      assert idx in ix;
      if idx < 6 {
        ShortImageUpperCells(arr, width, idx);
      }
      assert idx >= 6;
      assert GridRegions[6..][idx - 6] == name;
    }
  }

  // ---------------------------------------------------------------------
  // summarize_layout
  // ---------------------------------------------------------------------

  /** The summary of a `height x width` brightness array with at least one
      entry. */
  function SummarySpec(arr: seq<seq<real>>, width: nat): LayoutSummary
    requires Rectangular(arr, width) && |arr| > 0 && width > 0
  {
    SizeOfRectangle(arr, width);
    var aspect := AspectRatio(width, |arr|);
    LayoutSummary(aspect, Orientation(aspect), WhitespaceRatio(arr), Selected(FocalFlags(arr, width), GridRegions, 9))
  }

  /** `summarize_layout`, from the blurred grayscale array. */
  method SummarizeLayout(arr: seq<seq<real>>, width: nat) returns (summary: LayoutSummary)
    requires Rectangular(arr, width) && |arr| > 0 && width > 0
    ensures summary == SummarySpec(arr, width)
  {
    var height := |arr|;
    var aspectRatio := AspectRatio(width, height);
    var orientation := Orientation(aspectRatio);
    SizeOfRectangle(arr, width);
    var whitespaceRatio := WhitespaceRatio(arr);
    var focalRegions := ResolveFocalRegions(arr, width);
    summary := LayoutSummary(aspectRatio, orientation, whitespaceRatio, focalRegions);
  }

  /** The summary's whitespace ratio is in [0, 1] and its focal regions are
      distinct grid labels. */
  lemma SummaryShape(arr: seq<seq<real>>, width: nat)
    requires Rectangular(arr, width) && |arr| > 0 && width > 0
    ensures var s := SummarySpec(arr, width);
            0.0 <= s.whitespaceRatio <= 1.0 &&
            NoDup(s.focalRegions) &&
            (forall name :: name in s.focalRegions ==> name in GridRegions)
  {
    SizeOfRectangle(arr, width);
    WhitespaceRatioBounds(arr);
    GridRegionsDistinct();
    SelectedNames(FocalFlags(arr, width), GridRegions);
  }
}
