/** The evidence records of the local analysis pipeline and `consolidate`,
    which merges the per-image records into one bundle: a palette keyed by
    upper-cased hex (highest prominence wins, ties keep the first), sorted by
    prominence; typography keyed by `classification:weight:casing` (first
    wins); and the layout, copy and note lists concatenated in image order. */
module Pipeline {
  import opened Collections
  import opened AsciiStrings
  import opened Sorting
  import opened Paths

  datatype ColorSwatch = ColorSwatch(hex: string, name: string, prominence: real, usageHint: string)

  datatype TypographySample = TypographySample(text: string, casing: string, weight: string, classification: string)

  datatype LayoutSummary = LayoutSummary(
    aspectRatio: real,
    dominantOrientation: string,
    whitespaceRatio: real,
    focalRegions: seq<string>)

  /** `source` is the asset's path as a string. */
  datatype ImageExtraction = ImageExtraction(
    source: string,
    colors: seq<ColorSwatch>,
    typography: seq<TypographySample>,
    layout: Option<LayoutSummary>,
    detectedCopy: seq<string>,
    notes: seq<string>)

  datatype AggregatedEvidence = AggregatedEvidence(
    images: seq<ImageExtraction>,
    palette: seq<ColorSwatch>,
    typography: seq<TypographySample>,
    layoutPatterns: seq<string>,
    toneDescriptors: seq<string>,
    copyObservations: seq<string>,
    productionNotes: seq<string>)

  // ---------------------------------------------------------------------
  // Keys and per-image contributions
  // ---------------------------------------------------------------------

  function HexKey(c: ColorSwatch): string { Upper(c.hex) }

  function Prominence(c: ColorSwatch): real { c.prominence }

  function TypoKey(t: TypographySample): string {
    t.classification + ":" + t.weight + ":" + t.casing
  }

  function HexKeys(cs: seq<ColorSwatch>): (ks: seq<string>)
    ensures |ks| == |cs| && forall i :: 0 <= i < |cs| ==> ks[i] == HexKey(cs[i])
  {
    seq(|cs|, i requires 0 <= i < |cs| => HexKey(cs[i]))
  }

  function TypoKeys(ts: seq<TypographySample>): (ks: seq<string>)
    ensures |ks| == |ts| && forall i :: 0 <= i < |ts| ==> ks[i] == TypoKey(ts[i])
  {
    seq(|ts|, i requires 0 <= i < |ts| => TypoKey(ts[i]))
  }

  function ColorsOf(e: ImageExtraction): seq<ColorSwatch> { e.colors }

  function TypographyOf(e: ImageExtraction): seq<TypographySample> { e.typography }

  function CopyOf(e: ImageExtraction): seq<string> { e.detectedCopy }

  function OrientationOf(e: ImageExtraction): seq<string> {
    if e.layout.Some? then [e.layout.value.dominantOrientation] else []
  }

  function DenseNote(name: string): string {
    "Consider reviewing dense composition in " + name + "; whitespace under 25%."
  }

  predicate IsDense(e: ImageExtraction) {
    e.layout.Some? && e.layout.value.whitespaceRatio < 0.25
  }

  /** What one image adds to the production notes. */
  function ProductionOf(e: ImageExtraction): seq<string> {
    (if IsDense(e) then [DenseNote(PathName(e.source))] else []) + e.notes
  }

  // ---------------------------------------------------------------------
  // The two dictionaries, as folds over the flattened inputs
  // ---------------------------------------------------------------------

  /** One step of the palette loop: replace unless the present swatch is at
      least as prominent. */
  function OfferColor(t: OrderedMap<string, ColorSwatch>, c: ColorSwatch): OrderedMap<string, ColorSwatch>
    requires t.Valid()
  {
    var key := HexKey(c);
    if key in t.entries && t.entries[key].prominence >= c.prominence then t
    else t.Put(key, c)
  }

  function OfferColors(cs: seq<ColorSwatch>): (t: OrderedMap<string, ColorSwatch>)
    ensures t.Valid()
  {
    if cs == [] then EmptyMap() else OfferColor(OfferColors(cs[..|cs| - 1]), cs[|cs| - 1])
  }

  /** One step of the typography loop: only a new key is stored. */
  function OfferSample(t: OrderedMap<string, TypographySample>, s: TypographySample): OrderedMap<string, TypographySample>
    requires t.Valid()
  {
    var key := TypoKey(s);
    if key !in t.entries then t.Put(key, s) else t
  }

  function OfferSamples(ss: seq<TypographySample>): (t: OrderedMap<string, TypographySample>)
    ensures t.Valid()
  {
    if ss == [] then EmptyMap() else OfferSample(OfferSamples(ss[..|ss| - 1]), ss[|ss| - 1])
  }

  lemma OfferColorsSnoc(cs: seq<ColorSwatch>, c: ColorSwatch)
    ensures OfferColors(cs + [c]) == OfferColor(OfferColors(cs), c)
  {
    assert (cs + [c])[..|cs|] == cs;
  }

  lemma OfferColorsStep(before: seq<ColorSwatch>, cs: seq<ColorSwatch>, j: nat)
    requires j < |cs|
    ensures OfferColors(before + cs[..j + 1]) == OfferColor(OfferColors(before + cs[..j]), cs[j])
  {
    PrefixStep(before, cs, j);
    OfferColorsSnoc(before + cs[..j], cs[j]);
  }

  lemma OfferSamplesSnoc(ss: seq<TypographySample>, s: TypographySample)
    ensures OfferSamples(ss + [s]) == OfferSample(OfferSamples(ss), s)
  {
    assert (ss + [s])[..|ss|] == ss;
  }

  function AllColors(images: seq<ImageExtraction>): seq<ColorSwatch> { FlatMap(images, ColorsOf) }

  function AllSamples(images: seq<ImageExtraction>): seq<TypographySample> { FlatMap(images, TypographyOf) }

  /** What `consolidate` returns for `images`. */
  function ConsolidateSpec(images: seq<ImageExtraction>): AggregatedEvidence {
    AggregatedEvidence(
      images,
      SortDesc(OfferColors(AllColors(images)).Values(), Prominence),
      OfferSamples(AllSamples(images)).Values(),
      FlatMap(images, OrientationOf),
      [],
      FlatMap(images, CopyOf),
      FlatMap(images, ProductionOf))
  }

  // ---------------------------------------------------------------------
  // consolidate
  // ---------------------------------------------------------------------

  method Consolidate(extractions: seq<ImageExtraction>) returns (ev: AggregatedEvidence)
    ensures ev == ConsolidateSpec(extractions)
  {
    var images := extractions;
    var byHex: OrderedMap<string, ColorSwatch> := EmptyMap();
    var typographySamples: OrderedMap<string, TypographySample> := EmptyMap();
    var layoutPatterns: seq<string> := [];
    var tones: seq<string> := [];
    var copyLines: seq<string> := [];
    var production: seq<string> := [];
    var i := 0;
    while i < |images|
      invariant 0 <= i <= |images|
      invariant byHex == OfferColors(AllColors(images[..i]))
      invariant typographySamples == OfferSamples(AllSamples(images[..i]))
      invariant layoutPatterns == FlatMap(images[..i], OrientationOf)
      invariant copyLines == FlatMap(images[..i], CopyOf)
      invariant production == FlatMap(images[..i], ProductionOf)
    {
      var extraction := images[i];
      ConsolidateStep(images, i);
      byHex := MergeColors(byHex, extraction.colors, AllColors(images[..i]));
      typographySamples := MergeSamples(typographySamples, extraction.typography, AllSamples(images[..i]));
      ghost var productionBefore := production;
      if extraction.layout.Some? {
        layoutPatterns := layoutPatterns + [extraction.layout.value.dominantOrientation];
        var whitespace := extraction.layout.value.whitespaceRatio;
        if whitespace < 0.25 {
          production := production + [DenseNote(PathName(extraction.source))];
        }
      }
      copyLines := copyLines + extraction.detectedCopy;
      production := production + extraction.notes;
      ProductionOfCases(extraction);
      if IsDense(extraction) {
        AppendAssoc(productionBefore, [DenseNote(PathName(extraction.source))], extraction.notes);
      }
      i := i + 1;
    }
    assert images[..i] == images;
    var palette := SortDesc(byHex.Values(), Prominence);
    ev := AggregatedEvidence(images, palette, typographySamples.Values(),
                             layoutPatterns, tones, copyLines, production);
  }

  /** The palette part of one iteration of `consolidate`'s outer loop. */
  method MergeColors(byHex: OrderedMap<string, ColorSwatch>, colors: seq<ColorSwatch>, ghost before: seq<ColorSwatch>)
    returns (r: OrderedMap<string, ColorSwatch>)
    requires byHex == OfferColors(before)
    ensures r == OfferColors(before + colors)
  {
    r := byHex;
    var j := 0;
    PrefixEnds(before, colors);
    while j < |colors|
      invariant 0 <= j <= |colors|
      invariant r == OfferColors(before + colors[..j])
    {
      var color := colors[j];
      OfferColorsStep(before, colors, j);
      r := KeepColor(r, color);
      j := j + 1;
    }
  }

  /** One colour of the palette loop: kept when its hex is new or its
      prominence beats the stored one. */
  method KeepColor(byHex: OrderedMap<string, ColorSwatch>, color: ColorSwatch)
    returns (r: OrderedMap<string, ColorSwatch>)
    requires byHex.Valid()
    ensures r == OfferColor(byHex, color)
  {
    r := byHex;
    var key := Upper(color.hex);
    if !(key in r.entries && r.entries[key].prominence >= color.prominence) {
      r := r.Put(key, color);
    }
  }

  /** The typography part of one iteration of `consolidate`'s outer loop. */
  method MergeSamples(samples: OrderedMap<string, TypographySample>, typography: seq<TypographySample>, ghost before: seq<TypographySample>)
    returns (r: OrderedMap<string, TypographySample>)
    requires samples == OfferSamples(before)
    ensures r == OfferSamples(before + typography)
  {
    r := samples;
    var j := 0;
    PrefixEnds(before, typography);
    while j < |typography|
      invariant 0 <= j <= |typography|
      invariant r == OfferSamples(before + typography[..j])
    {
      var typo := typography[j];
      var key := typo.classification + ":" + typo.weight + ":" + typo.casing;
      ghost var prev := r;
      assert key == TypoKey(typo);
      PrefixStep(before, typography, j);
      OfferSamplesSnoc(before + typography[..j], typo);
      if key !in r.entries {
        r := r.Put(key, typo);
      }
      assert r == OfferSample(prev, typo);
      j := j + 1;
    }
  }

  lemma ProductionOfCases(e: ImageExtraction)
    ensures IsDense(e) ==> ProductionOf(e) == [DenseNote(PathName(e.source))] + e.notes
    ensures !IsDense(e) ==> ProductionOf(e) == e.notes
  {
  }

  lemma ConsolidateStep(images: seq<ImageExtraction>, i: nat)
    requires i < |images|
    ensures AllColors(images[..i + 1]) == AllColors(images[..i]) + images[i].colors
    ensures AllSamples(images[..i + 1]) == AllSamples(images[..i]) + images[i].typography
    ensures FlatMap(images[..i + 1], OrientationOf) == FlatMap(images[..i], OrientationOf) + OrientationOf(images[i])
    ensures FlatMap(images[..i + 1], CopyOf) == FlatMap(images[..i], CopyOf) + images[i].detectedCopy
    ensures FlatMap(images[..i + 1], ProductionOf) == FlatMap(images[..i], ProductionOf) + ProductionOf(images[i])
  {
    assert images[..i + 1] == images[..i] + [images[i]];
    FlatMapSnoc(images[..i], images[i], ColorsOf);
    FlatMapSnoc(images[..i], images[i], TypographyOf);
    FlatMapSnoc(images[..i], images[i], OrientationOf);
    FlatMapSnoc(images[..i], images[i], CopyOf);
    FlatMapSnoc(images[..i], images[i], ProductionOf);
  }

  /** The same input gives the same evidence. `Consolidate` is proved equal
      to the function `ConsolidateSpec` of its input, so this holds by
      construction; the method only spells out for callers that consolidating
      twice neither depends on nor leaves behind any hidden state. */
  method ConsolidateTwice(extractions: seq<ImageExtraction>) returns (first: AggregatedEvidence, second: AggregatedEvidence)
    ensures first == second
    ensures first.images == extractions
  {
    first := Consolidate(extractions);
    second := Consolidate(extractions);
  }

  // ---------------------------------------------------------------------
  // The palette dictionary
  // ---------------------------------------------------------------------

  /** `c` is the swatch `by_hex` keeps for its hex among `cs`: no swatch of that
      hex is more prominent, and every one before it is strictly less so. */
  predicate IsKept(cs: seq<ColorSwatch>, c: ColorSwatch) {
    (exists w :: 0 <= w < |cs| && cs[w] == c &&
       forall j :: 0 <= j < w && HexKey(cs[j]) == HexKey(c) ==> cs[j].prominence < c.prominence) &&
    (forall j :: 0 <= j < |cs| && HexKey(cs[j]) == HexKey(c) ==> cs[j].prominence <= c.prominence)
  }

  predicate PaletteTableInv(cs: seq<ColorSwatch>, t: OrderedMap<string, ColorSwatch>) {
    t.Valid() &&
    t.keys == Dedup(HexKeys(cs)) &&
    (forall k :: k in t.entries ==> HexKey(t.entries[k]) == k && IsKept(cs, t.entries[k]))
  }

  lemma KeptExtends(cs: seq<ColorSwatch>, c: ColorSwatch, e: ColorSwatch)
    requires IsKept(cs, e)
    requires HexKey(c) != HexKey(e) || c.prominence <= e.prominence
    ensures IsKept(cs + [c], e)
  {
    var w :| 0 <= w < |cs| && cs[w] == e &&
             forall j :: 0 <= j < w && HexKey(cs[j]) == HexKey(e) ==> cs[j].prominence < e.prominence;
    var cs' := cs + [c];
    assert cs'[w] == e;
    assert forall j :: 0 <= j < |cs| ==> cs'[j] == cs[j];
  }

  lemma KeptNewest(cs: seq<ColorSwatch>, t: OrderedMap<string, ColorSwatch>, c: ColorSwatch)
    requires PaletteTableInv(cs, t)
    requires HexKey(c) in t.entries ==> t.entries[HexKey(c)].prominence < c.prominence
    ensures IsKept(cs + [c], c)
  {
    var cs' := cs + [c];
    var k := HexKey(c);
    DedupProps(HexKeys(cs));
    assert cs'[|cs|] == c;
    forall j | 0 <= j < |cs'| && HexKey(cs'[j]) == k
      ensures cs'[j].prominence <= c.prominence
      ensures j < |cs| ==> cs'[j].prominence < c.prominence
    {
      if j < |cs| {
        assert cs'[j] == cs[j];
        assert HexKeys(cs)[j] == k;
        assert k in t.entries;
      }
    }
  }

  lemma {:induction false} OfferColorsInv(cs: seq<ColorSwatch>)
    ensures PaletteTableInv(cs, OfferColors(cs))
  {
    if cs != [] {
      var front := cs[..|cs| - 1];
      OfferColorsInv(front);
      SnocFront(cs);
      OfferColorInv(front, OfferColors(front), cs[|cs| - 1]);
    }
  }

  /** Offering one more swatch keeps the table in step with the longer list. */
  lemma OfferColorInv(front: seq<ColorSwatch>, t: OrderedMap<string, ColorSwatch>, c: ColorSwatch)
    requires PaletteTableInv(front, t)
    ensures PaletteTableInv(front + [c], OfferColor(t, c))
  {
    OfferColorKeys(front, t, c);
    OfferColorEntries(front, t, c);
  }

  lemma OfferColorKeys(front: seq<ColorSwatch>, t: OrderedMap<string, ColorSwatch>, c: ColorSwatch)
    requires PaletteTableInv(front, t)
    ensures OfferColor(t, c).keys == Dedup(HexKeys(front + [c]))
  {
    assert HexKeys(front + [c]) == HexKeys(front) + [HexKey(c)];
    DedupSnoc(HexKeys(front), HexKey(c));
    DedupProps(HexKeys(front));
  }

  lemma OfferColorEntries(front: seq<ColorSwatch>, t: OrderedMap<string, ColorSwatch>, c: ColorSwatch)
    requires PaletteTableInv(front, t)
    ensures var t' := OfferColor(t, c);
      forall k :: k in t'.entries ==> HexKey(t'.entries[k]) == k && IsKept(front + [c], t'.entries[k])
  {
    var t' := OfferColor(t, c);
    var k := HexKey(c);
    forall k' | k' in t'.entries
      ensures HexKey(t'.entries[k']) == k' && IsKept(front + [c], t'.entries[k'])
    {
      if k' == k && t'.entries[k'] == c && !(k in t.entries && t.entries[k].prominence >= c.prominence) {
        KeptNewest(front, t, c);
      } else {
        assert k' in t.entries && t'.entries[k'] == t.entries[k'];
        KeptExtends(front, c, t.entries[k']);
      }
    }
  }

  /** The dictionary's values have distinct hexes, listed in order of first
      appearance, and each is the swatch kept for its hex. */
  lemma TableValuesProps(cs: seq<ColorSwatch>)
    ensures DistinctUnder(OfferColors(cs).Values(), HexKey)
    ensures HexKeys(OfferColors(cs).Values()) == Dedup(HexKeys(cs))
    ensures forall p :: p in OfferColors(cs).Values() ==> IsKept(cs, p)
  {
    var t := OfferColors(cs);
    var vs := t.Values();
    OfferColorsInv(cs);
    forall i | 0 <= i < |vs| ensures HexKey(vs[i]) == t.keys[i] && IsKept(cs, vs[i]) {
      assert t.keys[i] in t.entries;
    }
    assert HexKeys(vs) == t.keys;
    forall i, j | 0 <= i < j < |vs| ensures HexKey(vs[i]) != HexKey(vs[j]) {
      assert HexKeys(vs)[i] == t.keys[i] && HexKeys(vs)[j] == t.keys[j];
    }
  }

  lemma SameHexes(a: seq<ColorSwatch>, b: seq<ColorSwatch>)
    requires multiset(a) == multiset(b)
    ensures forall k :: k in HexKeys(a) ==> k in HexKeys(b)
  {
    forall k | k in HexKeys(a) ensures k in HexKeys(b) {
      var i :| 0 <= i < |a| && HexKeys(a)[i] == k;
      assert a[i] in multiset(b);
      var j :| 0 <= j < |b| && b[j] == a[i];
      assert HexKeys(b)[j] == k;
    }
  }

  /** Palette entries are unique by upper-cased hex, one per hex seen, and each
      is the swatch of maximal prominence for its hex, the earliest on a tie. */
  lemma PaletteEntries(images: seq<ImageExtraction>)
    ensures DistinctUnder(ConsolidateSpec(images).palette, HexKey)
    ensures forall k :: k in HexKeys(ConsolidateSpec(images).palette) <==> k in HexKeys(AllColors(images))
    ensures forall p :: p in ConsolidateSpec(images).palette ==> IsKept(AllColors(images), p)
  {
    var cs := AllColors(images);
    var vs := OfferColors(cs).Values();
    var pal := ConsolidateSpec(images).palette;
    TableValuesProps(cs);
    DedupProps(HexKeys(cs));
    SortDescProps(vs, Prominence);
    PermutationKeepsDistinct(vs, pal, HexKey);
    SameHexes(vs, pal);
    SameHexes(pal, vs);
    forall p | p in pal ensures IsKept(cs, p) {
      assert p in multiset(vs);
    }
  }

  /** The palette is sorted by prominence, highest first; among equal
      prominences the order is that of the dictionary, whose keys are the
      upper-cased hexes in order of first appearance (a later replacement does
      not move its key). */
  lemma PaletteOrder(images: seq<ImageExtraction>)
    ensures SortedDesc(ConsolidateSpec(images).palette, Prominence)
    ensures multiset(ConsolidateSpec(images).palette) == multiset(OfferColors(AllColors(images)).Values())
    ensures forall v :: WithRealKey(ConsolidateSpec(images).palette, Prominence, v)
                        == WithRealKey(OfferColors(AllColors(images)).Values(), Prominence, v)
    ensures HexKeys(OfferColors(AllColors(images)).Values()) == Dedup(HexKeys(AllColors(images)))
  {
    TableValuesProps(AllColors(images));
    SortDescProps(OfferColors(AllColors(images)).Values(), Prominence);
  }

  // ---------------------------------------------------------------------
  // The typography dictionary
  // ---------------------------------------------------------------------

  predicate SampleTableInv(ss: seq<TypographySample>, t: OrderedMap<string, TypographySample>) {
    t.Valid() &&
    t.keys == Dedup(TypoKeys(ss)) &&
    (forall k :: k in t.entries ==> k in TypoKeys(ss) && t.entries[k] == ss[FirstIndex(TypoKeys(ss), k)])
  }

  lemma {:induction false} OfferSamplesInv(ss: seq<TypographySample>)
    ensures SampleTableInv(ss, OfferSamples(ss))
  {
    if ss != [] {
      var front := ss[..|ss| - 1];
      OfferSamplesInv(front);
      SnocFront(ss);
      OfferSampleInv(front, OfferSamples(front), ss[|ss| - 1]);
    }
  }

  /** Offering one more sample keeps the table in step with the longer list. */
  lemma OfferSampleInv(front: seq<TypographySample>, t: OrderedMap<string, TypographySample>, s: TypographySample)
    requires SampleTableInv(front, t)
    ensures SampleTableInv(front + [s], OfferSample(t, s))
  {
    var ss := front + [s];
    assert TypoKeys(ss) == TypoKeys(front) + [TypoKey(s)];
    DedupSnoc(TypoKeys(front), TypoKey(s));
    DedupProps(TypoKeys(front));
    OfferSampleEntries(front, t, s);
  }

  lemma OfferSampleEntries(front: seq<TypographySample>, t: OrderedMap<string, TypographySample>, s: TypographySample)
    requires SampleTableInv(front, t)
    ensures var ss, t' := front + [s], OfferSample(t, s);
      forall k :: k in t'.entries ==> k in TypoKeys(ss) && t'.entries[k] == ss[FirstIndex(TypoKeys(ss), k)]
  {
    var ss := front + [s];
    var t' := OfferSample(t, s);
    assert TypoKeys(ss) == TypoKeys(front) + [TypoKey(s)];
    DedupProps(TypoKeys(front));
    forall k | k in t'.entries
      ensures k in TypoKeys(ss) && t'.entries[k] == ss[FirstIndex(TypoKeys(ss), k)]
    {
      if k in t.entries {
        FirstIndexPrefix(TypoKeys(front), [TypoKey(s)], k);
        assert ss[FirstIndex(TypoKeys(front), k)] == front[FirstIndex(TypoKeys(front), k)];
      } else {
        assert k == TypoKey(s) && k !in TypoKeys(front);
        FirstIndexAppended(TypoKeys(front), k);
      }
    }
  }

  /** Typography entries have distinct keys, listed in order of first
      appearance, and each entry is the first sample with its key. */
  lemma TypographyEntries(images: seq<ImageExtraction>)
    ensures DistinctUnder(ConsolidateSpec(images).typography, TypoKey)
    ensures TypoKeys(ConsolidateSpec(images).typography) == Dedup(TypoKeys(AllSamples(images)))
    ensures forall i :: 0 <= i < |ConsolidateSpec(images).typography| ==>
              var ty := ConsolidateSpec(images).typography[i];
              TypoKey(ty) in TypoKeys(AllSamples(images)) &&
              ty == AllSamples(images)[FirstIndex(TypoKeys(AllSamples(images)), TypoKey(ty))]
  {
    SampleValuesProps(AllSamples(images));
  }

  /** The sample table's values, the same three facts over any sample list. */
  lemma SampleValuesProps(ss: seq<TypographySample>)
    ensures DistinctUnder(OfferSamples(ss).Values(), TypoKey)
    ensures TypoKeys(OfferSamples(ss).Values()) == Dedup(TypoKeys(ss))
    ensures forall i :: 0 <= i < |OfferSamples(ss).Values()| ==>
              var ty := OfferSamples(ss).Values()[i];
              TypoKey(ty) in TypoKeys(ss) && ty == ss[FirstIndex(TypoKeys(ss), TypoKey(ty))]
  {
    var t := OfferSamples(ss);
    var ty := t.Values();
    OfferSamplesInv(ss);
    forall i | 0 <= i < |ty| ensures TypoKey(ty[i]) == t.keys[i] {
      assert t.keys[i] in t.entries;
    }
    assert TypoKeys(ty) == t.keys;
    forall i, j | 0 <= i < j < |ty| ensures TypoKey(ty[i]) != TypoKey(ty[j]) {
      assert TypoKeys(ty)[i] == t.keys[i] && TypoKeys(ty)[j] == t.keys[j];
    }
  }

  function Triple(t: TypographySample): (string, string, string) {
    (t.classification, t.weight, t.casing)
  }

  /** Distinct keys mean distinct (classification, weight, casing) triples. */
  lemma TypographyUniqueByTriple(images: seq<ImageExtraction>)
    ensures DistinctUnder(ConsolidateSpec(images).typography, Triple)
  {
    TypographyEntries(images);
  }

  predicate NoColon(s: string) { ':' !in s }

  /** When no field holds a colon (the casing, weight and classification
      vocabularies do not), the string key identifies the triple. */
  lemma {:induction false} TypoKeyInjective(a: TypographySample, b: TypographySample)
    requires NoColon(a.classification) && NoColon(a.weight) && NoColon(b.classification) && NoColon(b.weight)
    requires TypoKey(a) == TypoKey(b)
    ensures Triple(a) == Triple(b)
  {
    assert TypoKey(a) == a.classification + ":" + (a.weight + ":" + a.casing);
    assert TypoKey(b) == b.classification + ":" + (b.weight + ":" + b.casing);
    ColonSplit(a.classification, a.weight + ":" + a.casing, b.classification, b.weight + ":" + b.casing);
    ColonSplit(a.weight, a.casing, b.weight, b.casing);
  }

  lemma ColonAt(x: string, y: string)
    requires NoColon(x)
    ensures ':' in x + ":" + y && FirstIndex(x + ":" + y, ':') == |x|
  {
    var z := x + ":" + y;
    assert z[|x|] == ':';
    var i := FirstIndex(z, ':');
    assert forall k :: 0 <= k < |x| ==> z[k] == x[k];
  }

  lemma ColonSplit(x: string, y: string, u: string, v: string)
    requires NoColon(x) && NoColon(u)
    requires x + ":" + y == u + ":" + v
    ensures x == u && y == v
  {
    ColonAt(x, y);
    ColonAt(u, v);
    var z := x + ":" + y;
    assert x == z[..|x|] && u == z[..|u|];
    assert y == z[|x| + 1..] && v == z[|u| + 1..];
  }

  /** With colons allowed in a field, two different triples share a key, and
      of two such samples only the first is kept. */
  lemma TypoKeyCollision()
    ensures var a := TypographySample("HELLO", "uppercase", "bold", "display:x");
            var b := TypographySample("Hi", "uppercase", "x:bold", "display");
            Triple(a) != Triple(b) && TypoKey(a) == TypoKey(b) &&
            OfferSamples([a, b]).Values() == [a]
  {
    var a := TypographySample("HELLO", "uppercase", "bold", "display:x");
    var b := TypographySample("Hi", "uppercase", "x:bold", "display");
    assert TypoKey(a) == TypoKey(b);
    assert [a, b][..1] == [a];
    assert [a][..0] == [];
    var t1 := OfferSamples([a]);
    assert OfferSamples([a]) == OfferSample(OfferSamples([]), a);
    assert t1 == EmptyMap().Put(TypoKey(a), a);
    assert OfferSamples([a, b]) == t1;
  }

  // ---------------------------------------------------------------------
  // The list fields
  // ---------------------------------------------------------------------

  /** The list fields of a concatenated input are the concatenations. */
  lemma ConsolidateAppend(a: seq<ImageExtraction>, b: seq<ImageExtraction>)
    ensures ConsolidateSpec(a + b).layoutPatterns == ConsolidateSpec(a).layoutPatterns + ConsolidateSpec(b).layoutPatterns
    ensures ConsolidateSpec(a + b).copyObservations == ConsolidateSpec(a).copyObservations + ConsolidateSpec(b).copyObservations
    ensures ConsolidateSpec(a + b).productionNotes == ConsolidateSpec(a).productionNotes + ConsolidateSpec(b).productionNotes
    ensures AllColors(a + b) == AllColors(a) + AllColors(b)
    ensures AllSamples(a + b) == AllSamples(a) + AllSamples(b)
  {
    FlatMapAppend(a, b, OrientationOf);
    FlatMapAppend(a, b, CopyOf);
    FlatMapAppend(a, b, ProductionOf);
    FlatMapAppend(a, b, ColorsOf);
    FlatMapAppend(a, b, TypographyOf);
  }

  /** What a single image contributes: its orientation exactly when it has a
      layout, its copy, and the dense note (naming the file) ahead of its own
      notes exactly when its whitespace ratio is below 0.25. */
  lemma ConsolidateSingle(e: ImageExtraction)
    ensures ConsolidateSpec([e]).layoutPatterns == (if e.layout.Some? then [e.layout.value.dominantOrientation] else [])
    ensures ConsolidateSpec([e]).copyObservations == e.detectedCopy
    ensures var p := ConsolidateSpec([e]).productionNotes;
            |p| >= |e.notes| && p[|p| - |e.notes|..] == e.notes &&
            (|p| == |e.notes| + 1 <==> e.layout.Some? && e.layout.value.whitespaceRatio < 0.25) &&
            (|p| == |e.notes| + 1 ==> p[0] == DenseNote(PathName(e.source))) &&
            (|p| != |e.notes| + 1 ==> p == e.notes)
  {
    FlatMapSingle(e, OrientationOf);
    FlatMapSingle(e, CopyOf);
    FlatMapSingle(e, ProductionOf);
  }

  /** 0.24 adds the note and 0.25 does not. */
  lemma DenseThreshold(source: string)
    ensures ConsolidateSpec([ImageExtraction(source, [], [], Some(LayoutSummary(1.0, "square", 0.24, [])), [], [])]).productionNotes
            == [DenseNote(PathName(source))]
    ensures ConsolidateSpec([ImageExtraction(source, [], [], Some(LayoutSummary(1.0, "square", 0.25, [])), [], [])]).productionNotes
            == []
  {
    DenseNoteFor(source, 0.24);
    DenseNoteFor(source, 0.25);
  }

  /** A single note-free image with whitespace ratio `ratio`. */
  lemma DenseNoteFor(source: string, ratio: real)
    ensures ConsolidateSpec([ImageExtraction(source, [], [], Some(LayoutSummary(1.0, "square", ratio, [])), [], [])]).productionNotes
            == if ratio < 0.25 then [DenseNote(PathName(source))] else []
  {
    var e := ImageExtraction(source, [], [], Some(LayoutSummary(1.0, "square", ratio, [])), [], []);
    FlatMapSingle(e, ProductionOf);
    assert ProductionOf(e) == (if ratio < 0.25 then [DenseNote(PathName(source))] else []) + [];
  }

  /** `images` is the input and `tone_descriptors` is always empty; an empty
      input gives empty lists throughout. */
  lemma ConsolidateShape(images: seq<ImageExtraction>)
    ensures ConsolidateSpec(images).images == images
    ensures ConsolidateSpec(images).toneDescriptors == []
    ensures images == [] ==>
              var ev := ConsolidateSpec(images);
              ev.palette == [] && ev.typography == [] && ev.layoutPatterns == [] &&
              ev.copyObservations == [] && ev.productionNotes == []
    ensures |ConsolidateSpec(images).palette| <= |AllColors(images)|
    ensures |ConsolidateSpec(images).typography| <= |AllSamples(images)|
  {
    var t := OfferColors(AllColors(images));
    OfferColorsInv(AllColors(images));
    OfferSamplesInv(AllSamples(images));
    DedupProps(HexKeys(AllColors(images)));
    DedupProps(TypoKeys(AllSamples(images)));
    SortDescProps(t.Values(), Prominence);
  }

  /** Two swatches of one hex in one image: the later replaces the earlier
      only when strictly more prominent. */
  lemma PaletteOfPair(x: ColorSwatch, y: ColorSwatch, src: string)
    requires HexKey(x) == HexKey(y)
    ensures ConsolidateSpec([ImageExtraction(src, [x, y], [], None, [], [])]).palette
            == [if y.prominence > x.prominence then y else x]
  {
    var k := HexKey(x);
    var w := if y.prominence > x.prominence then y else x;
    FlatMapSingle(ImageExtraction(src, [x, y], [], None, [], []), ColorsOf);
    assert [x, y][..1] == [x];
    assert [x][..0] == [];
    assert OfferColors([x]) == OfferColor(OfferColors([]), x);
    assert OfferColors([x]) == OrderedMap([k], map[k := x]);
    assert OfferColors([x, y]) == OrderedMap([k], map[k := w]);
    assert OfferColors([x, y]).Values() == [w];
    assert SortDesc([w], Prominence) == [w];
  }

  /** Two swatches of one hex: the more prominent is kept whatever the order. */
  lemma PaletteOrderIndependent(a: ColorSwatch, b: ColorSwatch, src: string)
    requires HexKey(a) == HexKey(b) && a.prominence < b.prominence
    ensures ConsolidateSpec([ImageExtraction(src, [a, b], [], None, [], [])]).palette == [b]
    ensures ConsolidateSpec([ImageExtraction(src, [b, a], [], None, [], [])]).palette == [b]
  {
    PaletteOfPair(a, b, src);
    PaletteOfPair(b, a, src);
  }
}
