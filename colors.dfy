/** Colour labelling and swatch building: the nearest entry of a fixed table
    of named anchors, the four-tier usage hint, `#RRGGBB` formatting, and the
    loop that turns the quantiser's palette and pixel indices into swatches
    ranked by pixel count. The quantiser itself is outside the model; its
    output (the flat palette list and the per-pixel palette indices) is the
    input here. */
module Colors {
  import opened Collections
  import opened Sorting
  import opened Pipeline

  newtype byte = x: int | 0 <= x < 256

  datatype Rgb = Rgb(r: byte, g: byte, b: byte)

  // ---------------------------------------------------------------------
  // Named anchors and the nearest one
  // ---------------------------------------------------------------------

  /** `NAMED_COLORS` */
  const NamedColors: seq<(string, Rgb)> := [
    ("Bynder Blue", Rgb(0, 161, 222)),
    ("Deep Blue", Rgb(0, 102, 204)),
    ("Navy", Rgb(17, 34, 68)),
    ("Sky", Rgb(102, 204, 255)),
    ("Midnight", Rgb(2, 20, 43)),
    ("Sunrise Orange", Rgb(255, 149, 0)),
    ("Vivid Red", Rgb(220, 20, 60)),
    ("Warm Red", Rgb(200, 48, 48)),
    ("Slate", Rgb(112, 128, 144)),
    ("Charcoal", Rgb(54, 69, 79)),
    ("Stone", Rgb(189, 195, 199)),
    ("Cloud", Rgb(236, 240, 241)),
    ("Emerald", Rgb(46, 204, 113)),
    ("Mint", Rgb(171, 235, 198)),
    ("Lavender", Rgb(187, 143, 206)),
    ("Magenta", Rgb(214, 41, 118)),
    ("Gold", Rgb(255, 195, 0))
  ]

  /** Squared Euclidean distance; the square root the source takes is strictly
      increasing, so it selects the same entry. */
  function SqDist(a: Rgb, b: Rgb): (d: nat)
    ensures d == 0 <==> a == b
  {
    var dr, dg, db := a.r as int - b.r as int, a.g as int - b.g as int, a.b as int - b.b as int;
    dr * dr + dg * dg + db * db
  }

  /** The position of the entry `min(table, key=distance)` returns. */
  function ClosestIndex(table: seq<(string, Rgb)>, rgb: Rgb): (i: nat)
    requires table != []
    ensures i < |table|
  {
    if |table| == 1 then 0
    else
      var i := ClosestIndex(table[..|table| - 1], rgb);
      if SqDist(table[|table| - 1].1, rgb) < SqDist(table[i].1, rgb) then |table| - 1 else i
  }

  /** `min` keeps the first of the entries at minimal distance. */
  lemma {:induction false} ClosestIndexIsFirstMinimum(table: seq<(string, Rgb)>, rgb: Rgb)
    requires table != []
    ensures var i := ClosestIndex(table, rgb);
            (forall j :: 0 <= j < |table| ==> SqDist(table[i].1, rgb) <= SqDist(table[j].1, rgb)) &&
            (forall j :: 0 <= j < i ==> SqDist(table[i].1, rgb) < SqDist(table[j].1, rgb))
  {
    if |table| > 1 {
      var front := table[..|table| - 1];
      ClosestIndexIsFirstMinimum(front, rgb);
      var k := ClosestIndex(front, rgb);
      assert forall j :: 0 <= j < |front| ==> front[j] == table[j];
    }
  }

  /** `_closest_named_color(rgb)` */
  function ClosestNamedColor(rgb: Rgb): string {
    NamedColors[ClosestIndex(NamedColors, rgb)].0
  }

  /** The label is the name of an entry at minimal distance, and no earlier
      entry is as close. */
  lemma ClosestNamedColorIsNearest(rgb: Rgb)
    ensures exists i :: 0 <= i < |NamedColors| && NamedColors[i].0 == ClosestNamedColor(rgb) &&
              (forall j :: 0 <= j < |NamedColors| ==> SqDist(NamedColors[i].1, rgb) <= SqDist(NamedColors[j].1, rgb)) &&
              (forall j :: 0 <= j < i ==> SqDist(NamedColors[i].1, rgb) < SqDist(NamedColors[j].1, rgb))
  {
    ClosestIndexIsFirstMinimum(NamedColors, rgb);
    var i := ClosestIndex(NamedColors, rgb);
    assert NamedColors[i].0 == ClosestNamedColor(rgb);
  }

  /** No two anchors share an RGB triple. */
  lemma AnchorsDistinct()
    ensures forall i, j :: 0 <= i < j < |NamedColors| ==> NamedColors[i].1 != NamedColors[j].1
  {
  }

  /** Every anchor's own RGB triple is labelled with the anchor's name. */
  lemma AnchorOwnName(i: nat)
    requires i < |NamedColors|
    ensures ClosestNamedColor(NamedColors[i].1) == NamedColors[i].0
  {
    var rgb := NamedColors[i].1;
    var k := ClosestIndex(NamedColors, rgb);
    ClosestIndexIsFirstMinimum(NamedColors, rgb);
    AnchorsDistinct();
    assert SqDist(NamedColors[k].1, rgb) <= SqDist(NamedColors[i].1, rgb) == 0;
    assert NamedColors[k].1 == rgb;
    assert k == i;
  }

  // ---------------------------------------------------------------------
  // Usage hint
  // ---------------------------------------------------------------------

  const Dominant := "Dominant background or hero coverage"
  const PrimarySupporting := "Primary supporting block"
  const Accent := "Accent or typography highlight"
  const DetailAccent := "Detail accent"

  /** `_usage_hint(prominence)` */
  function UsageHint(prominence: real): (r: string)
    ensures r == Dominant <==> prominence >= 0.45
    ensures r == PrimarySupporting <==> 0.25 <= prominence < 0.45
    ensures r == Accent <==> 0.10 <= prominence < 0.25
    ensures r == DetailAccent <==> prominence < 0.10
  {
    if prominence >= 0.45 then Dominant
    else if prominence >= 0.25 then PrimarySupporting
    else if prominence >= 0.10 then Accent
    else DetailAccent
  }

  /** The tier of a hint, 3 for dominant down to 0 for detail. */
  function HintRank(hint: string): nat {
    if hint == Dominant then 3
    else if hint == PrimarySupporting then 2
    else if hint == Accent then 1
    else 0
  }

  /** The hint is a step function: more prominence never gives a lower tier. */
  lemma UsageHintMonotone(p: real, q: real)
    requires p <= q
    ensures HintRank(UsageHint(p)) <= HintRank(UsageHint(q))
  {
  }

  // ---------------------------------------------------------------------
  // Hex formatting
  // ---------------------------------------------------------------------

  /** An upper-case hexadecimal digit, `0`-`9` or `A`-`F`. */
  predicate IsUpperHexDigit(c: char) {
    '0' <= c <= '9' || 'A' <= c <= 'F'
  }

  /** The digit `"0123456789ABCDEF"[d]`. */
  function HexDigit(d: nat): (c: char)
    requires d < 16
    ensures IsUpperHexDigit(c)
  {
    if d < 10 then ('0' as int + d) as char else ('A' as int + d - 10) as char
  }

  /** The value of a hexadecimal digit of either case, as `int(_, 16)` reads it. */
  function DigitValue(c: char): Option<nat> {
    if '0' <= c <= '9' then Some(c as int - '0' as int)
    else if 'A' <= c <= 'F' then Some(c as int - 'A' as int + 10)
    else if 'a' <= c <= 'f' then Some(c as int - 'a' as int + 10)
    else None
  }

  lemma DigitRoundTrip(d: nat)
    requires d < 16
    ensures DigitValue(HexDigit(d)) == Some(d)
  {
  }

  /** `v // 16`, by repeated subtraction so that the arithmetic about it stays
      linear; NibblesAreQuotient relates it to division. */
  function High(v: nat): (h: nat)
    ensures 16 * h <= v < 16 * h + 16
  {
    if v < 16 then 0 else 1 + High(v - 16)
  }

  /** `v // 16` and `v % 16`. */
  lemma NibblesAreQuotient(v: nat)
    ensures High(v) == v / 16 && v - 16 * High(v) == v % 16
  {
  }

  /** `f"{v:02X}"` for a byte: two upper-case digits, high nibble first. */
  function HexByte(v: byte): string {
    var h := High(v as int);
    [HexDigit(h), HexDigit(v as int - 16 * h)]
  }

  lemma HexByteShape(v: byte)
    ensures |HexByte(v)| == 2 && IsUpperHexDigit(HexByte(v)[0]) && IsUpperHexDigit(HexByte(v)[1])
  {
  }

  /** The two digits of `HexByte(v)` read back give `v`. */
  lemma HexByteRoundTrip(v: byte)
    ensures DigitValue(HexByte(v)[0]).Some? && DigitValue(HexByte(v)[1]).Some?
    ensures DigitValue(HexByte(v)[0]).value * 16 + DigitValue(HexByte(v)[1]).value == v as int
  {
    var h := High(v as int);
    DigitRoundTrip(h);
    DigitRoundTrip(v as int - 16 * h);
  }

  /** `f"#{r:02X}{g:02X}{b:02X}"` */
  function HexCode(c: Rgb): (s: string) {
    "#" + HexByte(c.r) + HexByte(c.g) + HexByte(c.b)
  }

  /** A code is `#` and six upper-case hex digits, two per channel. */
  lemma HexCodeShape(c: Rgb)
    ensures |HexCode(c)| == 7 && HexCode(c)[0] == '#'
    ensures forall i :: 1 <= i < 7 ==> IsUpperHexDigit(HexCode(c)[i])
    ensures HexCode(c)[1..3] == HexByte(c.r) && HexCode(c)[3..5] == HexByte(c.g) && HexCode(c)[5..7] == HexByte(c.b)
  {
    HexByteShape(c.r);
    HexByteShape(c.g);
    HexByteShape(c.b);
  }

  /** Distinct colours get distinct codes. */
  lemma HexCodeInjective(a: Rgb, b: Rgb)
    requires HexCode(a) == HexCode(b)
    ensures a == b
  {
    HexCodeShape(a);
    HexCodeShape(b);
    HexByteRoundTrip(a.r); HexByteRoundTrip(b.r);
    HexByteRoundTrip(a.g); HexByteRoundTrip(b.g);
    HexByteRoundTrip(a.b); HexByteRoundTrip(b.b);
    assert HexByte(a.r) == HexCode(a)[1..3] == HexByte(b.r);
    assert HexByte(a.g) == HexCode(a)[3..5] == HexByte(b.g);
    assert HexByte(a.b) == HexCode(a)[5..7] == HexByte(b.b);
  }

  // ---------------------------------------------------------------------
  // Pixel counts (`Counter(palette.getdata())`) and `most_common`
  // ---------------------------------------------------------------------

  /** The pixel count of each palette index, keys in order of first pixel. */
  function Counts(pixels: seq<nat>): (m: OrderedMap<nat, nat>)
    ensures m.Valid()
    ensures forall k :: k in m.entries <==> k in pixels
    ensures forall k :: k in m.entries ==> m.entries[k] >= 1
  {
    if pixels == [] then EmptyMap()
    else
      var m := Counts(pixels[..|pixels| - 1]);
      var p := pixels[|pixels| - 1];
      SnocFront(pixels);
      m.Put(p, if p in m.entries then m.entries[p] + 1 else 1)
  }

  /** `counter.items()`: (index, count) pairs in insertion order. */
  function Items(m: OrderedMap<nat, nat>): (r: seq<(nat, nat)>)
    requires m.Valid()
    ensures |r| == |m.keys|
    ensures forall i :: 0 <= i < |r| ==> r[i].0 == m.keys[i] && r[i].1 == m.entries[m.keys[i]]
  {
    seq(|m.keys|, i requires 0 <= i < |m.keys| => (m.keys[i], m.entries[m.keys[i]]))
  }

  function Count(item: (nat, nat)): real { item.1 as real }

  function Min(a: nat, b: nat): nat { if a <= b then a else b }

  /** `counts.most_common(n)`: sorted by count, descending and stable, then the
      first `n`. */
  function MostCommon(items: seq<(nat, nat)>, n: nat): (r: seq<(nat, nat)>)
    ensures |r| == Min(n, |items|)
  {
    SortDescProps(items, Count);
    SortDesc(items, Count)[..Min(n, |items|)]
  }

  function Sum(items: seq<(nat, nat)>): nat {
    if items == [] then 0 else Sum(items[..|items| - 1]) + items[|items| - 1].1
  }

  lemma {:induction false} SumAppend(a: seq<(nat, nat)>, b: seq<(nat, nat)>)
    ensures Sum(a + b) == Sum(a) + Sum(b)
    decreases |b|
  {
    if b != [] {
      assert (a + b)[..|a + b| - 1] == a + b[..|b| - 1];
      assert (a + b)[|a + b| - 1] == b[|b| - 1];
      SumAppend(a, b[..|b| - 1]);
    } else {
      assert a + b == a;
    }
  }

  lemma SumCons(x: (nat, nat), t: seq<(nat, nat)>)
    ensures Sum([x] + t) == x.1 + Sum(t)
  {
    SumAppend([x], t);
    assert [x][..0] == [];
  }

  lemma {:induction false} SumInsertDesc(x: (nat, nat), t: seq<(nat, nat)>)
    ensures Sum(InsertDesc(x, t, Count)) == x.1 + Sum(t)
    decreases |t|
  {
    if t == [] || Count(x) >= Count(t[0]) {
      SumCons(x, t);
    } else {
      SumInsertDesc(x, t[1..]);
      SumCons(t[0], InsertDesc(x, t[1..], Count));
      assert t == [t[0]] + t[1..];
      SumCons(t[0], t[1..]);
    }
  }

  /** Sorting moves counts around but keeps their total. */
  lemma {:induction false} SumSortDesc(items: seq<(nat, nat)>)
    ensures Sum(SortDesc(items, Count)) == Sum(items)
  {
    if items != [] {
      SumSortDesc(items[1..]);
      SumInsertDesc(items[0], SortDesc(items[1..], Count));
      assert items == [items[0]] + items[1..];
      SumCons(items[0], items[1..]);
    }
  }

  lemma MostCommonSum(items: seq<(nat, nat)>, n: nat)
    ensures Sum(MostCommon(items, n)) <= Sum(items)
  {
    var s := SortDesc(items, Count);
    SortDescProps(items, Count);
    var k := Min(n, |items|);
    assert s == s[..k] + s[k..];
    SumAppend(s[..k], s[k..]);
    SumSortDesc(items);
  }

  lemma {:induction false} SumBound(items: seq<(nat, nat)>, i: nat)
    requires i < |items|
    ensures items[i].1 <= Sum(items)
  {
    if i < |items| - 1 {
      SumBound(items[..|items| - 1], i);
    }
  }

  // ---------------------------------------------------------------------
  // The swatch loop
  // ---------------------------------------------------------------------

  /** `count / total_pixels`, built up as `count` shares of one pixel, so
      that the sums below stay linear; ShareIsRatio states it is the quotient. */
  function Share(count: nat, total: nat): real
    requires total > 0
  {
    if count == 0 then 0.0 else Share(count - 1, total) + 1.0 / total as real
  }

  lemma {:induction false} ShareIsRatio(count: nat, total: nat)
    requires total > 0
    ensures Share(count, total) == count as real / total as real
  {
    if count > 0 {
      ShareIsRatio(count - 1, total);
    }
  }

  lemma ShareBounds(count: nat, total: nat)
    requires total > 0
    ensures Share(count, total) >= 0.0
    ensures count >= 1 ==> Share(count, total) > 0.0
    ensures count <= total ==> Share(count, total) <= 1.0
  {
    ShareIsRatio(count, total);
  }

  lemma ShareMonotone(a: nat, b: nat, total: nat)
    requires total > 0 && a <= b
    ensures Share(a, total) <= Share(b, total)
  {
    ShareIsRatio(a, total);
    ShareIsRatio(b, total);
  }

  lemma ShareAdd(a: nat, b: nat, total: nat)
    requires total > 0
    ensures Share(a + b, total) == Share(a, total) + Share(b, total)
  {
    ShareIsRatio(a, total);
    ShareIsRatio(b, total);
    ShareIsRatio(a + b, total);
  }

  /** The `ColorSwatch` built for one palette colour. */
  function MakeSwatch(rgb: Rgb, colorName: string, prominence: real): (sw: ColorSwatch)
    ensures sw.prominence == prominence && sw.usageHint == UsageHint(prominence)
  {
    ColorSwatch(HexCode(rgb), colorName, prominence, UsageHint(prominence))
  }

  /** The swatch one `(index, count)` pair yields: none when the palette list
      has no full triple at `3 * index`. `name` labels a colour; the swatch
      list of `extract_colors` uses `ClosestNamedColor`, and the lemmas below
      hold for any labelling. */
  function SwatchFor(item: (nat, nat), paletteColors: seq<byte>, total: nat, name: Rgb -> string): (r: seq<ColorSwatch>)
    requires total > 0
    ensures |r| <= 1 && (r == [] <==> item.0 * 3 + 2 >= |paletteColors|)
    ensures r != [] ==> r[0].prominence == Share(item.1, total) && r[0].usageHint == UsageHint(r[0].prominence)
  {
    var base := item.0 * 3;
    if base + 2 >= |paletteColors| then []
    else
      var rgb := Rgb(paletteColors[base], paletteColors[base + 1], paletteColors[base + 2]);
      [MakeSwatch(rgb, name(rgb), Share(item.1, total))]
  }

  lemma SwatchForStep(item: (nat, nat), paletteColors: seq<byte>, total: nat, name: Rgb -> string)
    requires total > 0 && item.0 * 3 + 2 < |paletteColors|
    ensures SwatchFor(item, paletteColors, total, name) ==
            var rgb := Rgb(paletteColors[item.0 * 3], paletteColors[item.0 * 3 + 1], paletteColors[item.0 * 3 + 2]);
            [MakeSwatch(rgb, name(rgb), Share(item.1, total))]
  {
  }

  /** `sum(counts.values()) or 1` */
  function Total(items: seq<(nat, nat)>): (t: nat)
    ensures t > 0
  {
    if Sum(items) == 0 then 1 else Sum(items)
  }

  /** The list `extract_colors` returns: one swatch per usable entry of
      `most_common(max_colors)`, in that order. */
  function SwatchesSpec(palette: seq<byte>, pixels: seq<nat>, maxColors: nat): seq<ColorSwatch> {
    var paletteColors := palette[..Min(maxColors * 3, |palette|)];
    var items := Items(Counts(pixels));
    var total := Total(items);
    SwatchesOf(MostCommon(items, maxColors), paletteColors, total, ClosestNamedColor)
  }

  /** `extract_colors`, from the quantiser's flat palette list and the palette
      index of every pixel. */
  method ExtractColors(palette: seq<byte>, pixels: seq<nat>, maxColors: nat) returns (swatches: seq<ColorSwatch>)
    ensures swatches == SwatchesSpec(palette, pixels, maxColors)
  {
    var paletteColors := palette[..Min(maxColors * 3, |palette|)];
    var items := Items(Counts(pixels));
    var totalPixels := Total(items);
    swatches := BuildSwatches(MostCommon(items, maxColors), paletteColors, totalPixels, ClosestNamedColor);
  }

  /** The swatches of the pairs in `top`, in order. */
  function SwatchesOf(top: seq<(nat, nat)>, paletteColors: seq<byte>, total: nat, name: Rgb -> string): seq<ColorSwatch>
    requires total > 0
  {
    if top == [] then []
    else SwatchesOf(top[..|top| - 1], paletteColors, total, name) + SwatchFor(top[|top| - 1], paletteColors, total, name)
  }

  /** The loop of `extract_colors` over the ranked `(index, count)` pairs. */
  method BuildSwatches(top: seq<(nat, nat)>, paletteColors: seq<byte>, totalPixels: nat, name: Rgb -> string) returns (swatches: seq<ColorSwatch>)
    requires totalPixels > 0
    ensures swatches == SwatchesOf(top, paletteColors, totalPixels, name)
  {
    swatches := [];
    var i := 0;
    WholePrefix(top);
    while i < |top|
      invariant 0 <= i <= |top|
      invariant swatches == SwatchesOf(top[..i], paletteColors, totalPixels, name)
    {
      SwatchesOfStep(top, i, paletteColors, totalPixels, name);
      swatches := AppendSwatch(swatches, top[i], paletteColors, totalPixels, name);
      i := i + 1;
    }
  }

  /** One pair of the loop: its swatch is appended when its palette index
      has a full colour in the palette. */
  method AppendSwatch(swatches: seq<ColorSwatch>, item: (nat, nat), paletteColors: seq<byte>, totalPixels: nat, name: Rgb -> string)
    returns (out: seq<ColorSwatch>)
    requires totalPixels > 0
    ensures out == swatches + SwatchFor(item, paletteColors, totalPixels, name)
  {
    out := swatches;
    var index, count := item.0, item.1;
    var baseIndex := index * 3;
    if baseIndex + 2 < |paletteColors| {
      var r, g, b := paletteColors[baseIndex], paletteColors[baseIndex + 1], paletteColors[baseIndex + 2];
      var prominence := Share(count, totalPixels);
      SwatchForStep(item, paletteColors, totalPixels, name);
      var rgb := Rgb(r, g, b);
      out := out + [MakeSwatch(rgb, name(rgb), prominence)];
    }
  }

  lemma SwatchesOfStep(top: seq<(nat, nat)>, i: nat, pc: seq<byte>, total: nat, name: Rgb -> string)
    requires total > 0 && i < |top|
    ensures SwatchesOf(top[..i + 1], pc, total, name) == SwatchesOf(top[..i], pc, total, name) + SwatchFor(top[i], pc, total, name)
  {
    assert top[..i + 1][..i] == top[..i];
  }

  // ---------------------------------------------------------------------
  // Properties of the swatch list
  // ---------------------------------------------------------------------

  /** Each swatch comes from one of the pairs, at most one per pair, and
      carries that pair's share of the total as its prominence. */
  lemma {:induction false} SwatchesFromItems(top: seq<(nat, nat)>, pc: seq<byte>, total: nat, name: Rgb -> string)
    requires total > 0
    ensures |SwatchesOf(top, pc, total, name)| <= |top|
    ensures forall k :: 0 <= k < |SwatchesOf(top, pc, total, name)| ==>
              exists j :: 0 <= j < |top| && SwatchFor(top[j], pc, total, name) == [SwatchesOf(top, pc, total, name)[k]]
  {
    if top != [] {
      var front := top[..|top| - 1];
      var last := top[|top| - 1];
      SwatchesFromItems(front, pc, total, name);
      var prev := SwatchesOf(front, pc, total, name);
      var cur := SwatchesOf(top, pc, total, name);
      forall k | 0 <= k < |cur| ensures exists j :: 0 <= j < |top| && SwatchFor(top[j], pc, total, name) == [cur[k]] {
        if k < |prev| {
          var j :| 0 <= j < |front| && SwatchFor(front[j], pc, total, name) == [prev[k]];
          assert cur[k] == prev[k] && top[j] == front[j];
        } else {
          assert SwatchFor(top[|front|], pc, total, name) == [cur[k]];
        }
      }
    }
  }

  /** Pairs ranked by count give swatches ranked by prominence. */
  lemma {:induction false} SwatchesSorted(top: seq<(nat, nat)>, pc: seq<byte>, total: nat, name: Rgb -> string)
    requires total > 0 && SortedDesc(top, Count)
    ensures SortedDesc(SwatchesOf(top, pc, total, name), Prominence)
  {
    if top != [] {
      var front := top[..|top| - 1];
      var last := top[|top| - 1];
      assert SortedDesc(front, Count) by {
        forall i, j | 0 <= i < j < |front| ensures Count(front[i]) >= Count(front[j]) {
          assert front[i] == top[i] && front[j] == top[j];
        }
      }
      SwatchesSorted(front, pc, total, name);
      var prev := SwatchesOf(front, pc, total, name);
      var step := SwatchFor(last, pc, total, name);
      if step != [] {
        SwatchesBelow(front, pc, total, last.1, name);
        var cur := prev + step;
        forall i, k | 0 <= i < k < |cur| ensures cur[i].prominence >= cur[k].prominence {
          assert cur[i] == prev[i];
          if k < |prev| {
            assert cur[k] == prev[k];
          }
        }
      }
    }
  }

  /** When every pair counts at least `c`, every swatch has at least the share of `c`. */
  lemma SwatchesBelow(top: seq<(nat, nat)>, pc: seq<byte>, total: nat, c: nat, name: Rgb -> string)
    requires total > 0 && forall j :: 0 <= j < |top| ==> top[j].1 >= c
    ensures forall k :: 0 <= k < |SwatchesOf(top, pc, total, name)| ==> SwatchesOf(top, pc, total, name)[k].prominence >= Share(c, total)
  {
    SwatchesFromItems(top, pc, total, name);
    var r := SwatchesOf(top, pc, total, name);
    forall k | 0 <= k < |r| ensures r[k].prominence >= Share(c, total) {
      var j :| 0 <= j < |top| && SwatchFor(top[j], pc, total, name) == [r[k]];
      ShareMonotone(c, top[j].1, total);
    }
  }

  function ProminenceSum(cs: seq<ColorSwatch>): real {
    if cs == [] then 0.0 else ProminenceSum(cs[..|cs| - 1]) + cs[|cs| - 1].prominence
  }

  lemma {:induction false} ProminenceSumAppend(a: seq<ColorSwatch>, b: seq<ColorSwatch>)
    ensures ProminenceSum(a + b) == ProminenceSum(a) + ProminenceSum(b)
    decreases |b|
  {
    if b != [] {
      assert (a + b)[..|a + b| - 1] == a + b[..|b| - 1];
      assert (a + b)[|a + b| - 1] == b[|b| - 1];
      ProminenceSumAppend(a, b[..|b| - 1]);
    } else {
      assert a + b == a;
    }
  }

  /** The prominences add up to at most the pairs' share of the total. */
  lemma {:induction false} SwatchesSum(top: seq<(nat, nat)>, pc: seq<byte>, total: nat, name: Rgb -> string)
    requires total > 0
    ensures ProminenceSum(SwatchesOf(top, pc, total, name)) <= Share(Sum(top), total)
  {
    if top == [] {
      ShareBounds(0, total);
    } else {
      SwatchesSum(top[..|top| - 1], pc, total, name);
      SwatchesSumStep(top, pc, total, name);
    }
  }

  /** One more pair adds at most its own share to the prominences. */
  lemma SwatchesSumStep(top: seq<(nat, nat)>, pc: seq<byte>, total: nat, name: Rgb -> string)
    requires total > 0 && top != []
    requires ProminenceSum(SwatchesOf(top[..|top| - 1], pc, total, name)) <= Share(Sum(top[..|top| - 1]), total)
    ensures ProminenceSum(SwatchesOf(top, pc, total, name)) <= Share(Sum(top), total)
  {
    var front := top[..|top| - 1];
    var last := top[|top| - 1];
    SwatchesSumSnoc(top, pc, total, name);
    ShareSnoc(top, total);
    StepSum(last, pc, total, name);
    SumStep(ProminenceSum(SwatchesOf(top, pc, total, name)), ProminenceSum(SwatchesOf(front, pc, total, name)),
            ProminenceSum(SwatchFor(last, pc, total, name)),
            Share(Sum(front), total), Share(last.1, total), Share(Sum(top), total));
  }

  lemma SwatchesSumSnoc(top: seq<(nat, nat)>, pc: seq<byte>, total: nat, name: Rgb -> string)
    requires total > 0 && top != []
    ensures ProminenceSum(SwatchesOf(top, pc, total, name)) ==
            ProminenceSum(SwatchesOf(top[..|top| - 1], pc, total, name)) + ProminenceSum(SwatchFor(top[|top| - 1], pc, total, name))
  {
    ProminenceSumAppend(SwatchesOf(top[..|top| - 1], pc, total, name), SwatchFor(top[|top| - 1], pc, total, name));
  }

  lemma ShareSnoc(top: seq<(nat, nat)>, total: nat)
    requires total > 0 && top != []
    ensures Share(Sum(top), total) == Share(Sum(top[..|top| - 1]), total) + Share(top[|top| - 1].1, total)
  {
    SumSnoc(top);
    ShareAdd(Sum(top[..|top| - 1]), top[|top| - 1].1, total);
  }

  lemma SumStep(s: real, x: real, y: real, a: real, b: real, t: real)
    requires s == x + y && x <= a && y <= b && t == a + b
    ensures s <= t
  {
  }

  lemma SumSnoc(top: seq<(nat, nat)>)
    requires top != []
    ensures Sum(top) == Sum(top[..|top| - 1]) + top[|top| - 1].1
  {
  }

  lemma StepSum(item: (nat, nat), pc: seq<byte>, total: nat, name: Rgb -> string)
    requires total > 0
    ensures ProminenceSum(SwatchFor(item, pc, total, name)) <= Share(item.1, total)
  {
    var step := SwatchFor(item, pc, total, name);
    ShareBounds(item.1, total);
    if step != [] {
      assert step[..0] == [];
    }
  }

  /** `most_common` ranks by count, only picks existing pairs, never picks
      more often than a pair occurs, and leaves out no pair that counts more
      than one it picks. */
  lemma MostCommonProps(items: seq<(nat, nat)>, n: nat)
    ensures SortedDesc(MostCommon(items, n), Count)
    ensures forall j :: 0 <= j < |MostCommon(items, n)| ==> MostCommon(items, n)[j] in items
    ensures multiset(MostCommon(items, n)) <= multiset(items)
    ensures forall x, j :: x in items && x !in MostCommon(items, n) && 0 <= j < |MostCommon(items, n)| ==>
              Count(x) <= Count(MostCommon(items, n)[j])
  {
    SortDescProps(items, Count);
    var sorted := SortDesc(items, Count);
    var top := MostCommon(items, n);
    assert top == sorted[..|top|];
    forall i, j | 0 <= i < j < |top| ensures Count(top[i]) >= Count(top[j]) {
      assert top[i] == sorted[i] && top[j] == sorted[j];
    }
    forall j | 0 <= j < |top| ensures top[j] in items {
      assert top[j] == sorted[j];
      assert top[j] in multiset(items);
    }
    PrefixMultiset(sorted, |top|);
    forall x, j | x in items && x !in top && 0 <= j < |top| ensures Count(x) <= Count(top[j]) {
      assert x in multiset(sorted);
      var p :| 0 <= p < |sorted| && sorted[p] == x;
      assert p >= |top|;
      assert top[j] == sorted[j];
    }
  }

  /** A prefix holds no element more often than the whole sequence. */
  lemma {:induction false} PrefixMultiset<T>(s: seq<T>, k: nat)
    requires k <= |s|
    ensures multiset(s[..k]) <= multiset(s)
  {
    assert s == s[..k] + s[k..];
  }

  /** Every pair of the pixel counts counts at least one pixel and at most
      their total. */
  lemma ItemsBounds(pixels: seq<nat>)
    ensures var items := Items(Counts(pixels));
            forall it :: it in items ==> 1 <= it.1 <= Total(items)
  {
    var items := Items(Counts(pixels));
    forall it | it in items ensures 1 <= it.1 <= Total(items) {
      var i :| 0 <= i < |items| && items[i] == it;
      SumBound(items, i);
    }
  }

  /** Pairs counting between one pixel and the total give prominences in (0, 1]. */
  lemma SwatchesInRange(top: seq<(nat, nat)>, pc: seq<byte>, total: nat, name: Rgb -> string)
    requires total > 0 && forall j :: 0 <= j < |top| ==> 1 <= top[j].1 <= total
    ensures forall k :: 0 <= k < |SwatchesOf(top, pc, total, name)| ==>
              0.0 < SwatchesOf(top, pc, total, name)[k].prominence <= 1.0 &&
              SwatchesOf(top, pc, total, name)[k].usageHint == UsageHint(SwatchesOf(top, pc, total, name)[k].prominence)
  {
    SwatchesFromItems(top, pc, total, name);
    var r := SwatchesOf(top, pc, total, name);
    forall k | 0 <= k < |r| ensures 0.0 < r[k].prominence <= 1.0 && r[k].usageHint == UsageHint(r[k].prominence) {
      var j :| 0 <= j < |top| && SwatchFor(top[j], pc, total, name) == [r[k]];
      ShareBounds(top[j].1, total);
    }
  }

  /** The ranked swatches: at most `max_colors` of them, prominence never
      increasing along the list, each prominence in (0, 1] with the hint that
      prominence gets, the prominences together at most 1, and none at all
      for an image without pixels. */
  lemma SwatchesBounds(palette: seq<byte>, pixels: seq<nat>, maxColors: nat)
    ensures var r := SwatchesSpec(palette, pixels, maxColors);
            |r| <= maxColors &&
            SortedDesc(r, Prominence) &&
            (forall k :: 0 <= k < |r| ==> 0.0 < r[k].prominence <= 1.0 && r[k].usageHint == UsageHint(r[k].prominence)) &&
            ProminenceSum(r) <= 1.0 &&
            (pixels == [] ==> r == []) &&
            var items := Items(Counts(pixels));
            (pixels != [] ==>
              Total(items) > 0 &&
              forall it, k :: it in items && it !in MostCommon(items, maxColors) && 0 <= k < |r| ==>
                Share(it.1, Total(items)) <= r[k].prominence)
  {
    var paletteColors := palette[..Min(maxColors * 3, |palette|)];
    var items := Items(Counts(pixels));
    var total := Total(items);
    var top := MostCommon(items, maxColors);
    SwatchesFromItems(top, paletteColors, total, ClosestNamedColor);
    MostCommonProps(items, maxColors);
    ItemsBounds(pixels);
    SwatchesInRange(top, paletteColors, total, ClosestNamedColor);
    SwatchesSorted(top, paletteColors, total, ClosestNamedColor);
    SwatchesSum(top, paletteColors, total, ClosestNamedColor);
    MostCommonSum(items, maxColors);
    ShareMonotone(Sum(top), Sum(items), total);
    ShareBounds(Sum(items), total);
    if pixels != [] {
      assert items[0] in items;
      SwatchesRanked(items, paletteColors, maxColors);
    }
  }

  /** When every picked index has a full triple in the palette list, every
      pair yields its swatch. */
  lemma {:induction false} SwatchesAllFit(top: seq<(nat, nat)>, pc: seq<byte>, total: nat, name: Rgb -> string)
    requires total > 0 && forall j :: 0 <= j < |top| ==> top[j].0 * 3 + 2 < |pc|
    ensures |SwatchesOf(top, pc, total, name)| == |top|
  {
    if top != [] {
      SwatchesAllFit(top[..|top| - 1], pc, total, name);
    }
  }

  /** An image with pixels, whose palette indices all have a colour in the
      truncated palette list (as the adaptive quantiser's indices below
      `max_colors` do), gets at least one swatch. */
  lemma SwatchesNonEmpty(palette: seq<byte>, pixels: seq<nat>, maxColors: nat)
    requires pixels != [] && maxColors > 0
    requires forall i :: 0 <= i < |pixels| ==> pixels[i] * 3 + 2 < Min(maxColors * 3, |palette|)
    ensures SwatchesSpec(palette, pixels, maxColors) != []
  {
    var paletteColors := palette[..Min(maxColors * 3, |palette|)];
    var m := Counts(pixels);
    var items := Items(m);
    var top := MostCommon(items, maxColors);
    assert pixels[0] in m.entries;
    assert |items| > 0;
    MostCommonProps(items, maxColors);
    forall j | 0 <= j < |top| ensures top[j].0 * 3 + 2 < |paletteColors| {
      assert top[j] in items;
      var i :| 0 <= i < |items| && items[i] == top[j];
      assert top[j].0 in pixels;
    }
    SwatchesAllFit(top, paletteColors, Total(items), ClosestNamedColor);
  }

  /** No pair `most_common` leaves out counts more pixels than a returned
      swatch stands for: the share it would get is at most every swatch's
      prominence. */
  lemma SwatchesRanked(items: seq<(nat, nat)>, pc: seq<byte>, n: nat)
    requires Total(items) > 0
    ensures var top, total := MostCommon(items, n), Total(items);
            var r := SwatchesOf(top, pc, total, ClosestNamedColor);
            forall it, k :: it in items && it !in top && 0 <= k < |r| ==>
              Share(it.1, total) <= r[k].prominence
  {
    var top, total := MostCommon(items, n), Total(items);
    var r := SwatchesOf(top, pc, total, ClosestNamedColor);
    SwatchesFromItems(top, pc, total, ClosestNamedColor);
    forall it, k | it in items && it !in top && 0 <= k < |r|
      ensures Share(it.1, total) <= r[k].prominence
    {
      var j :| 0 <= j < |top| && SwatchFor(top[j], pc, total, ClosestNamedColor) == [r[k]];
      MostCommonOutranks(items, n, it, j);
      SwatchRanked(it.1, top[j], pc, total, r[k]);
    }
  }

  /** A pair left out of `most_common(n)` counts no more than a picked one. */
  lemma MostCommonOutranks(items: seq<(nat, nat)>, n: nat, it: (nat, nat), j: nat)
    requires it in items && it !in MostCommon(items, n) && j < |MostCommon(items, n)|
    ensures it.1 <= MostCommon(items, n)[j].1
  {
    MostCommonProps(items, n);
    assert Count(it) <= Count(MostCommon(items, n)[j]);
  }

  /** One swatch against one pair counting no more than the swatch's own. */
  lemma SwatchRanked(count: nat, item: (nat, nat), pc: seq<byte>, total: nat, w: ColorSwatch)
    requires total > 0 && count <= item.1 && SwatchFor(item, pc, total, ClosestNamedColor) == [w]
    ensures Share(count, total) <= w.prominence
  {
    ShareMonotone(count, item.1, total);
  }
}
