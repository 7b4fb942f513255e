// The rule tables of guidelines.py: the brightness a hex code is read as and
// the tone it selects, the uppercase ratio and the casing rule, the most
// common orientation, the focal hotspots, the whitespace radius tiers and the
// synthetic swatches built from a palette specification.

module GuidelineRules {
  import opened Collections
  import opened AsciiStrings
  import opened Sorting
  import opened Pipeline
  import opened Colors
  import opened Layout
  import opened DesignSpec

  // ---------------------------------------------------------------------
  // _relative_brightness
  // ---------------------------------------------------------------------

  /** `s[i:j]` with `0 <= i <= j`: Python clamps both bounds to the length. */
  function Slice(s: string, i: nat, j: nat): (r: string)
    requires i <= j
    ensures |r| <= j - i
  {
    if j <= |s| then s[i..j] else if i <= |s| then s[i..] else ""
  }

  /** `int(s, 16)` for the strings of at most two characters that
      `_relative_brightness` passes it: surrounding whitespace, an optional
      sign, then one or two hexadecimal digits of either case. Anything else
      raises `ValueError`, which is `None` here. */
  function ParseHex(s: string): Option<int>
    requires |s| <= 2
  {
    var t := Strip(s);
    if t == [] then None
    else if t[0] == '+' || t[0] == '-' then
      if |t| == 2 && DigitValue(t[1]).Some? then
        var d: int := DigitValue(t[1]).value;
        Some(if t[0] == '-' then -d else d)
      else None
    else if |t| == 1 then
      if DigitValue(t[0]).Some? then Some(DigitValue(t[0]).value) else None
    else if DigitValue(t[0]).Some? && DigitValue(t[1]).Some? then
      Some(16 * DigitValue(t[0]).value + DigitValue(t[1]).value)
    else None
  }

  /** The red, green and blue values `_relative_brightness` reads from
      `hex_value.lstrip("#")`, or `None` where one of the `int` calls raises. */
  function Channels(hex: string): Option<(int, int, int)> {
    var h := TrimLeft(hex, {'#'});
    var r := ParseHex(Slice(h, 0, 2));
    var g := ParseHex(Slice(h, 2, 4));
    var b := ParseHex(Slice(h, 4, 6));
    if r.Some? && g.Some? && b.Some? then Some((r.value, g.value, b.value)) else None
  }

  /** The brightness scaled by 2550000, in integers. */
  function ScaledBrightness(c: (int, int, int)): int {
    2126 * c.0 + 7152 * c.1 + 722 * c.2
  }

  /** `(0.2126 * r + 0.7152 * g + 0.0722 * b) / 255.0` */
  function Brightness(c: (int, int, int)): (v: real)
    ensures v == (0.2126 * c.0 as real + 0.7152 * c.1 as real + 0.0722 * c.2 as real) / 255.0
  {
    ScaledBrightness(c) as real / 2550000.0
  }

  /** `_relative_brightness(hex_value)`, `None` where it raises. */
  function RelativeBrightness(hex: string): Option<real> {
    var c := Channels(hex);
    if c.Some? then Some(Brightness(c.value)) else None
  }

  /** No whitespace to strip: `strip` returns the string itself. */
  lemma StripNoSpace(s: string)
    requires forall i :: 0 <= i < |s| ==> !IsSpace(s[i])
    ensures Strip(s) == s
  {
    TrimFixed(s, Whitespace);
  }

  /** Two hexadecimal digits read back as the byte they spell. */
  lemma ParseHexByte(v: byte)
    ensures ParseHex(HexByte(v)) == Some(v as int)
  {
    var s := HexByte(v);
    HexByteShape(v);
    HexByteRoundTrip(v);
    ParseTwoDigits(s);
  }

  /** Two upper-case hexadecimal digits are read as base-16 numerals. */
  lemma ParseTwoDigits(s: string)
    requires |s| == 2 && IsUpperHexDigit(s[0]) && IsUpperHexDigit(s[1])
    ensures DigitValue(s[0]).Some? && DigitValue(s[1]).Some?
    ensures ParseHex(s) == Some(16 * DigitValue(s[0]).value + DigitValue(s[1]).value)
  {
    StripNoSpace(s);
    assert s[0] != '+' && s[0] != '-';
  }

  /** A colour code formatted by `extract_colors` is read back as its own channels. */
  lemma HexCodeChannels(c: Rgb)
    ensures Channels(HexCode(c)) == Some((c.r as int, c.g as int, c.b as int))
  {
    var s := HexCode(c);
    HexCodeShape(c);
    var h := TrimLeft(s, {'#'});
    assert s[1] != '#';
    assert h == s[1..];
    assert Slice(h, 0, 2) == HexByte(c.r);
    assert Slice(h, 2, 4) == HexByte(c.g);
    assert Slice(h, 4, 6) == HexByte(c.b);
    ParseHexByte(c.r);
    ParseHexByte(c.g);
    ParseHexByte(c.b);
  }

  // ---------------------------------------------------------------------
  // Tone of voice
  // ---------------------------------------------------------------------

  datatype Tone = Confident | Assured | Open

  /** The tone words of the "Dominant palette leans" line. */
  function ToneWords(t: Tone): string {
    match t
    case Confident => "confident and premium"
    case Assured => "assured and balanced"
    case Open => "open and energizing"
  }

  /** The brightness buckets of `_tone_of_voice_section`. */
  function ToneOf(brightness: real): Tone {
    if brightness < 0.35 then Confident
    else if brightness < 0.6 then Assured
    else Open
  }

  /** The buckets decided exactly on the integer brightness. */
  lemma ToneBuckets(c: (int, int, int))
    ensures ToneOf(Brightness(c)) == Confident <==> ScaledBrightness(c) < 892500
    ensures ToneOf(Brightness(c)) == Assured <==> 892500 <= ScaledBrightness(c) < 1530000
    ensures ToneOf(Brightness(c)) == Open <==> 1530000 <= ScaledBrightness(c)
  {
  }

  function ToneRank(t: Tone): nat {
    match t
    case Confident => 0
    case Assured => 1
    case Open => 2
  }

  /** A brighter dominant colour never selects a more subdued tone. */
  lemma ToneMonotone(a: real, b: real)
    requires a <= b
    ensures ToneRank(ToneOf(a)) <= ToneRank(ToneOf(b))
  {
  }

  // ---------------------------------------------------------------------
  // _uppercase_ratio and the casing line
  // ---------------------------------------------------------------------

  function LetterCount(s: string): nat {
    if s == [] then 0
    else LetterCount(s[..|s| - 1]) + (if IsAlpha(s[|s| - 1]) then 1 else 0)
  }

  function UpperCount(s: string): nat {
    if s == [] then 0
    else UpperCount(s[..|s| - 1]) + (if IsAlpha(s[|s| - 1]) && IsUpperChar(s[|s| - 1]) then 1 else 0)
  }

  /** The letters of all lines. */
  function Letters(lines: seq<string>): nat {
    if lines == [] then 0 else Letters(lines[..|lines| - 1]) + LetterCount(lines[|lines| - 1])
  }

  /** The upper-case letters of all lines. */
  function Uppers(lines: seq<string>): nat {
    if lines == [] then 0 else Uppers(lines[..|lines| - 1]) + UpperCount(lines[|lines| - 1])
  }

  /** The fraction of letters that are upper case, 0 without letters. */
  function UppercaseRatioSpec(lines: seq<string>): real {
    if Letters(lines) == 0 then 0.0 else Uppers(lines) as real / Letters(lines) as real
  }

  /** `_uppercase_ratio(lines)` */
  method UppercaseRatio(lines: seq<string>) returns (ratio: real)
    ensures ratio == UppercaseRatioSpec(lines)
  {
    var letters := 0;
    var uppercase := 0;
    var i := 0;
    while i < |lines|
      invariant 0 <= i <= |lines|
      invariant letters == Letters(lines[..i]) && uppercase == Uppers(lines[..i])
    {
      var line := lines[i];
      var j := 0;
      while j < |line|
        invariant 0 <= j <= |line|
        invariant letters == Letters(lines[..i]) + LetterCount(line[..j])
        invariant uppercase == Uppers(lines[..i]) + UpperCount(line[..j])
      {
        var c := line[j];
        if IsAlpha(c) {
          letters := letters + 1;
          if IsUpperChar(c) {
            uppercase := uppercase + 1;
          }
        }
        assert line[..j + 1][..j] == line[..j];
        j := j + 1;
      }
      assert line[..j] == line;
      assert lines[..i + 1][..i] == lines[..i];
      i := i + 1;
    }
    assert lines[..i] == lines;
    if letters == 0 {
      ratio := 0.0;
    } else {
      ratio := uppercase as real / letters as real;
    }
  }

  lemma {:induction false} UpperCountBound(s: string)
    ensures UpperCount(s) <= LetterCount(s)
  {
    if s != [] {
      UpperCountBound(s[..|s| - 1]);
    }
  }

  lemma {:induction false} UppersBound(lines: seq<string>)
    ensures Uppers(lines) <= Letters(lines)
  {
    if lines != [] {
      UppersBound(lines[..|lines| - 1]);
      UpperCountBound(lines[|lines| - 1]);
    }
  }

  /** The ratio lies in [0, 1]; it is 0 exactly when no letter is upper case
      and 1 exactly when there are letters and all are upper case. */
  lemma UppercaseRatioBounds(lines: seq<string>)
    ensures 0.0 <= UppercaseRatioSpec(lines) <= 1.0
    ensures Letters(lines) == 0 ==> UppercaseRatioSpec(lines) == 0.0
    ensures UppercaseRatioSpec(lines) == 0.0 <==> Uppers(lines) == 0
    ensures UppercaseRatioSpec(lines) == 1.0 <==> Letters(lines) > 0 && Uppers(lines) == Letters(lines)
  {
    UppersBound(lines);
    if Letters(lines) > 0 {
      FractionBounds(Uppers(lines), Letters(lines));
    }
  }

  datatype Casing = BoldCasing | SentenceCasing | MixedCasing

  /** The casing rule of `_tone_of_voice_section`. */
  function CasingOf(ratio: real, hasCopy: bool): Casing {
    if ratio > 0.55 then BoldCasing
    else if ratio < 0.25 && hasCopy then SentenceCasing
    else MixedCasing
  }

  /** The casing line chosen for some copy: bold when more than 55% of the
      letters are upper case, sentence case below 25% with copy present, mixed
      otherwise, and so mixed for no copy at all. */
  lemma CasingRules(lines: seq<string>)
    ensures var r := UppercaseRatioSpec(lines);
      && (CasingOf(r, lines != []) == BoldCasing <==> r > 0.55)
      && (CasingOf(r, lines != []) == SentenceCasing <==> r < 0.25 && lines != [])
      && (lines == [] ==> CasingOf(r, lines != []) == MixedCasing)
      && (Letters(lines) > 0 && Uppers(lines) == Letters(lines) ==> CasingOf(r, lines != []) == BoldCasing)
  {
    if lines == [] {
      assert Letters(lines) == 0;
    }
    UppercaseRatioBounds(lines);
  }

  // ---------------------------------------------------------------------
  // mean(len(line.split()) for line in copy_lines)
  // ---------------------------------------------------------------------

  function WordTotal(lines: seq<string>): nat {
    if lines == [] then 0 else WordTotal(lines[..|lines| - 1]) + |Split(lines[|lines| - 1])|
  }

  /** The mean number of words per copy line, 0 without copy. */
  function AverageLength(lines: seq<string>): real {
    Mean(WordTotal(lines), |lines|)
  }

  /** `total / n`, and 0 for `n == 0`. */
  function Mean(total: nat, n: nat): real {
    if n == 0 then 0.0 else total as real / n as real
  }

  /** The "Punchy Headlines" principle applies exactly when the lines hold at
      most four words each on average. */
  lemma PunchyIff(lines: seq<string>)
    ensures AverageLength(lines) <= 4.0 <==> WordTotal(lines) <= 4 * |lines|
  {
    MeanAtMostNat(WordTotal(lines), |lines|, 4);
  }

  lemma MeanAtMostNat(total: nat, n: nat, bound: nat)
    requires n == 0 ==> total == 0
    ensures Mean(total, n) <= bound as real <==> total <= bound * n
  {
    if n > 0 {
      MeanAtMost(total as real, n as real, bound as real);
      var b, m := bound * n, bound as real * n as real;
      assert b as real == m;
    }
  }

  lemma MeanAtMost(total: real, n: real, bound: real)
    requires n > 0.0
    ensures total / n <= bound <==> total <= bound * n
  {
    var m := total / n;
    assert m * n == total;
    ScaleStrict(m, bound, n);
  }

  // ---------------------------------------------------------------------
  // Counter(...).most_common
  // ---------------------------------------------------------------------

  function Occurrences(labels: seq<string>, x: string): nat {
    multiset(labels)[x]
  }

  /** `max(keys, key=count)`: the first key with the highest count. */
  function FirstMax(keys: seq<string>, labels: seq<string>): string
    requires keys != []
  {
    if |keys| == 1 then keys[0]
    else
      var best := FirstMax(keys[..|keys| - 1], labels);
      var x := keys[|keys| - 1];
      if Occurrences(labels, x) > Occurrences(labels, best) then x else best
  }

  lemma {:induction false} FirstMaxProps(keys: seq<string>, labels: seq<string>)
    requires keys != []
    ensures FirstMax(keys, labels) in keys
    ensures forall k :: k in keys ==> Occurrences(labels, k) <= Occurrences(labels, FirstMax(keys, labels))
    ensures forall j :: 0 <= j < FirstIndex(keys, FirstMax(keys, labels)) ==>
              Occurrences(labels, keys[j]) < Occurrences(labels, FirstMax(keys, labels))
  {
    if |keys| > 1 {
      var front := keys[..|keys| - 1];
      var x := keys[|keys| - 1];
      var best := FirstMax(front, labels);
      FirstMaxProps(front, labels);
      SnocFront(keys);
      FirstIndexPrefix(front, [x], best);
      if Occurrences(labels, x) > Occurrences(labels, best) {
        if x in front {
          assert false;
        }
        FirstIndexAppended(front, x);
        assert forall j :: 0 <= j < |front| ==> keys[j] == front[j] && keys[j] in front;
      }
    }
  }

  /** `Counter(labels).most_common(1)[0][0]`, and "landscape" without labels:
      CPython's `most_common(1)` is `max` over the entries in insertion order. */
  function MostCommonOrientation(labels: seq<string>): string {
    if labels == [] then Landscape else FirstMax(Dedup(labels), labels)
  }

  /** The orientation is a label with the highest count; of several with that
      count, the one that occurs first. */
  lemma MostCommonOrientationProps(labels: seq<string>)
    ensures labels == [] ==> MostCommonOrientation(labels) == Landscape
    ensures labels != [] ==>
      var o := MostCommonOrientation(labels);
      && o in labels
      && (forall x :: x in labels ==> Occurrences(labels, x) <= Occurrences(labels, o))
      && (forall x :: x in labels && Occurrences(labels, x) == Occurrences(labels, o) ==>
            FirstIndex(labels, o) <= FirstIndex(labels, x))
  {
    if labels != [] {
      var d := Dedup(labels);
      DedupProps(labels);
      assert labels[0] in d;
      FirstMaxProps(d, labels);
      MostCommonFirst(labels);
    }
  }

  /** Of the labels with the highest count, the one chosen occurs first. */
  lemma MostCommonFirst(labels: seq<string>)
    requires labels != []
    ensures var o := MostCommonOrientation(labels);
      forall x :: x in labels && Occurrences(labels, x) == Occurrences(labels, o) ==>
        FirstIndex(labels, o) <= FirstIndex(labels, x)
  {
    var d := Dedup(labels);
    DedupProps(labels);
    assert labels[0] in d;
    var o := FirstMax(d, labels);
    FirstMaxProps(d, labels);
    forall x | x in labels && Occurrences(labels, x) == Occurrences(labels, o)
      ensures FirstIndex(labels, o) <= FirstIndex(labels, x)
    {
      if x != o {
        assert x in d;
        var jx, jo := FirstIndex(d, x), FirstIndex(d, o);
        assert d[jo] == o && d[jx] == x;
        assert jo < jx by {
          if jx < jo {
            assert false;
          }
        }
        assert FirstIndex(labels, d[jo]) < FirstIndex(labels, d[jx]);
      }
    }
  }

  /** The count of each label, as the sort key. */
  function CountKey(labels: seq<string>): string -> real {
    (x: string) => Occurrences(labels, x) as real
  }

  /** `[label for label, _ in Counter(labels).most_common(n)]`: the distinct
      labels by count, highest first, ties in order of first occurrence. */
  function TopLabels(labels: seq<string>, n: nat): seq<string> {
    var sorted := SortDesc(Dedup(labels), CountKey(labels));
    sorted[..Min(n, |sorted|)]
  }

  /** At most `n` distinct labels, by non-increasing count, and none left out
      occurs more often than one chosen. */
  lemma TopLabelsProps(labels: seq<string>, n: nat)
    ensures var t := TopLabels(labels, n);
      && |t| <= n
      && NoDup(t)
      && (forall x :: x in t ==> x in labels)
      && SortedDesc(t, CountKey(labels))
      && (forall x, y :: x in labels && x !in t && y in t ==> Occurrences(labels, x) <= Occurrences(labels, y))
      && (labels != [] && n > 0 ==> t != [])
  {
    var sorted := SortDesc(Dedup(labels), CountKey(labels));
    RankedLabels(labels);
    TakeSortedDesc(sorted, Min(n, |sorted|), CountKey(labels));
    TopLabelsMaximal(labels, n);
    if labels != [] && n > 0 {
      assert labels[0] in sorted;
    }
  }

  /** No label left out of the top `n` occurs more often than one kept. */
  lemma TopLabelsMaximal(labels: seq<string>, n: nat)
    ensures var t := TopLabels(labels, n);
      forall x, y :: x in labels && x !in t && y in t ==> Occurrences(labels, x) <= Occurrences(labels, y)
  {
    var key := CountKey(labels);
    var sorted := SortDesc(Dedup(labels), key);
    RankedLabels(labels);
    var t := sorted[..Min(n, |sorted|)];
    forall x, y | x in labels && x !in t && y in t
      ensures Occurrences(labels, x) <= Occurrences(labels, y)
    {
      assert x in sorted;
      var p :| 0 <= p < |sorted| && sorted[p] == x;
      var i :| 0 <= i < |t| && t[i] == y;
      assert key(sorted[i]) >= key(sorted[p]);
    }
  }

  /** The distinct labels ranked by count: each label once, nothing else. */
  lemma RankedLabels(labels: seq<string>)
    ensures var sorted := SortDesc(Dedup(labels), CountKey(labels));
      && NoDup(sorted)
      && SortedDesc(sorted, CountKey(labels))
      && (forall x :: x in sorted <==> x in labels)
  {
    var d := Dedup(labels);
    var sorted := SortDesc(d, CountKey(labels));
    DedupProps(labels);
    SortDescProps(d, CountKey(labels));
    assert forall x :: x in sorted <==> x in multiset(sorted);
    assert forall x :: x in d <==> x in multiset(d);
    assert DistinctUnder(d, Id);
    PermutationKeepsDistinct(d, sorted, Id);
    assert DistinctUnder(sorted, Id);
  }

  // ---------------------------------------------------------------------
  // Corner radius tiers
  // ---------------------------------------------------------------------

  function WhitespaceOf(e: ImageExtraction): seq<real> {
    if e.layout.Some? then [e.layout.value.whitespaceRatio] else []
  }

  /** The whitespace ratios of the images with a layout, in order. */
  function WhitespaceLevels(evidence: Option<AggregatedEvidence>): seq<real> {
    if evidence.Some? then FlatMap(evidence.value.images, WhitespaceOf) else []
  }

  function SumReals(xs: seq<real>): real {
    if xs == [] then 0.0 else SumReals(xs[..|xs| - 1]) + xs[|xs| - 1]
  }

  const DefaultWhitespace: real := 0.35

  /** `mean(levels) if levels else 0.35` */
  function AverageWhitespace(evidence: Option<AggregatedEvidence>): real {
    var levels := WhitespaceLevels(evidence);
    if levels == [] then DefaultWhitespace else SumReals(levels) / |levels| as real
  }

  datatype Radius = SoftRadius | StandardRadius | TightRadius

  /** The tiers of `_corner_radius_section`. */
  function RadiusOf(average: real): Radius {
    if average >= 0.5 then SoftRadius
    else if average >= 0.3 then StandardRadius
    else TightRadius
  }

  lemma {:induction false} SumBetween(xs: seq<real>, lo: real, hi: real)
    requires forall i :: 0 <= i < |xs| ==> lo <= xs[i] <= hi
    ensures |xs| as real * lo <= SumReals(xs) <= |xs| as real * hi
  {
    if xs != [] {
      SumBetween(xs[..|xs| - 1], lo, hi);
    }
  }

  /** A mean lies between bounds every value respects. */
  lemma MeanBetween(xs: seq<real>, lo: real, hi: real)
    requires xs != [] && forall i :: 0 <= i < |xs| ==> lo <= xs[i] <= hi
    ensures lo <= SumReals(xs) / |xs| as real <= hi
  {
    SumBetween(xs, lo, hi);
    QuotientBetween(SumReals(xs), |xs| as real, lo, hi);
  }

  /** A total between `n * lo` and `n * hi` gives a quotient between the two. */
  lemma QuotientBetween(total: real, n: real, lo: real, hi: real)
    requires n > 0.0 && n * lo <= total <= n * hi
    ensures lo <= total / n <= hi
  {
    var m := total / n;
    assert m * n == total;
    ScaleStrict(lo, m, n);
    ScaleStrict(m, hi, n);
  }

  /** Without any laid-out image the standard tier applies; when every laid-out
      image has at least half whitespace the soft tier, and when every one has
      less than 30% the tight tier. */
  lemma RadiusTiers(evidence: Option<AggregatedEvidence>)
    ensures WhitespaceLevels(evidence) == [] ==> RadiusOf(AverageWhitespace(evidence)) == StandardRadius
    ensures var levels := WhitespaceLevels(evidence);
      levels != [] && (forall i :: 0 <= i < |levels| ==> 0.5 <= levels[i] <= 1.0) ==>
        RadiusOf(AverageWhitespace(evidence)) == SoftRadius
    ensures var levels := WhitespaceLevels(evidence);
      levels != [] && (forall i :: 0 <= i < |levels| ==> 0.0 <= levels[i] < 0.3) ==>
        RadiusOf(AverageWhitespace(evidence)) == TightRadius
  {
    var levels := WhitespaceLevels(evidence);
    if levels != [] {
      if forall i :: 0 <= i < |levels| ==> 0.5 <= levels[i] <= 1.0 {
        MeanBetween(levels, 0.5, 1.0);
      }
      if forall i :: 0 <= i < |levels| ==> 0.0 <= levels[i] < 0.3 {
        MeanBelow(levels, 0.3);
      }
    }
  }

  lemma {:induction false} SumBelow(xs: seq<real>, hi: real)
    requires xs != [] && forall i :: 0 <= i < |xs| ==> xs[i] < hi
    ensures SumReals(xs) < |xs| as real * hi
  {
    if |xs| > 1 {
      SumBelow(xs[..|xs| - 1], hi);
    }
  }

  lemma MeanBelow(xs: seq<real>, hi: real)
    requires xs != [] && forall i :: 0 <= i < |xs| ==> xs[i] < hi
    ensures SumReals(xs) / |xs| as real < hi
  {
    SumBelow(xs, hi);
    QuotientBelow(SumReals(xs), |xs| as real, hi);
  }

  /** A total below `n * hi` gives a quotient below `hi`. */
  lemma QuotientBelow(total: real, n: real, hi: real)
    requires n > 0.0 && total < n * hi
    ensures total / n < hi
  {
    var m := total / n;
    assert m * n == total;
    ScaleStrict(hi, m, n);
  }

  // ---------------------------------------------------------------------
  // _swatches_from_palette_spec
  // ---------------------------------------------------------------------

  const MissingHex := "#000000"
  const FallbackHex := "#00A1DE"

  /** The swatch used when the specification lists no colour. */
  const FallbackSwatch := ColorSwatch(FallbackHex, "Bynder Blue", 0.6, "Primary anchor")

  /** The fallback colour's hex code parses, as the code of (0, 161, 222). */
  lemma FallbackChannels()
    ensures Channels(FallbackHex) == Some((0, 161, 222))
  {
    var c := Rgb(0, 161, 222);
    assert High(161) == 10 && High(222) == 13;
    assert HexByte(0) == "00" && HexByte(161) == "A1" && HexByte(222) == "DE";
    assert HexCode(c) == FallbackHex;
    HexCodeChannels(c);
  }

  /** `max(0.5 - idx * 0.1, 0.1)` */
  function SpecProminence(idx: nat): real {
    var p := 0.5 - idx as real * 0.1;
    if p >= 0.1 then p else 0.1
  }

  /** The swatch for the entry at position `idx`. */
  function SpecSwatch(c: PaletteEntry, idx: nat): ColorSwatch {
    var hex := c.hex.GetOr(MissingHex);
    ColorSwatch(
      hex,
      if c.names != [] then c.names[0] else hex,
      SpecProminence(idx),
      if c.usageNotes != [] then Join(", ", c.usageNotes) else DetailAccent)
  }

  function PaletteSwatches(spec: seq<PaletteEntry>): seq<ColorSwatch> {
    if spec == [] then [FallbackSwatch]
    else seq(|spec|, idx requires 0 <= idx < |spec| => SpecSwatch(spec[idx], idx))
  }

  /** `_swatches_from_palette_spec(palette_spec)` */
  method SwatchesFromPaletteSpec(spec: seq<PaletteEntry>) returns (swatches: seq<ColorSwatch>)
    ensures swatches == PaletteSwatches(spec)
  {
    swatches := [];
    for idx := 0 to |spec|
      invariant swatches == seq(idx, i requires 0 <= i < idx => SpecSwatch(spec[i], i))
    {
      var color := spec[idx];
      var hexValue := color.hex.GetOr(MissingHex);
      var names := color.names;
      var usage := color.usageNotes;
      var prominence := 0.5 - idx as real * 0.1;
      if prominence < 0.1 {
        prominence := 0.1;
      }
      swatches := swatches + [ColorSwatch(
        hexValue,
        if names != [] then names[0] else hexValue,
        prominence,
        if usage != [] then Join(", ", usage) else DetailAccent)];
    }
    if swatches == [] {
      swatches := swatches + [FallbackSwatch];
    }
  }

  /** One swatch per entry and never none; prominences step down by 0.1 from
      0.5 to a floor of 0.1; the name falls back to the hex code; an empty
      specification gives the single fallback swatch. */
  lemma PaletteSwatchesProps(spec: seq<PaletteEntry>)
    ensures var r := PaletteSwatches(spec);
      && |r| == (if spec == [] then 1 else |spec|)
      && (spec == [] ==> r == [FallbackSwatch])
      && (forall i, j :: 0 <= i < j < |spec| ==> r[i].prominence >= r[j].prominence)
      && (forall i :: 0 <= i < |spec| ==> 0.1 <= r[i].prominence <= 0.5)
      && (forall i :: 0 <= i < |spec| ==> r[i].hex == spec[i].hex.GetOr(MissingHex))
      && (forall i :: 0 <= i < |spec| ==> r[i].name == if spec[i].names != [] then spec[i].names[0] else r[i].hex)
      && (forall i :: 0 <= i < |spec| && i <= 4 ==> r[i].prominence == 0.5 - i as real * 0.1)
  {
  }
}
