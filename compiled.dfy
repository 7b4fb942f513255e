// The aggregation that both `aggregate_guidelines` functions perform
// (analyzer.py and openai_integration.py): the per-image guideline records are
// folded into one accumulator of sets and keyed tables, which
// `_finalize_compiled` then turns into sorted lists. The two source files
// differ only in how they key the typography table, so the key is a parameter
// here and each module supplies its own.
//
// Python sets become duplicate-free lists in insertion order (the order is
// never observed: every set is sorted before it leaves), dictionaries become
// `OrderedMap`s. A missing key, `None` or any other falsy value where a string
// is read becomes the empty string.

module Compilation {
  import opened Collections
  import opened AsciiStrings
  import opened Sorting
  import opened Text
  import opened DesignSpec

  // ---------------------------------------------------------------------
  // Per-image records, as the vision model returns them
  // ---------------------------------------------------------------------

  datatype VisionColor = VisionColor(hex: string, name: string, usage: string, finish: string, notes: string)

  datatype VisionType = VisionType(
    family: string,
    style: string,
    usage: string,
    sizeRange: string,
    tracking: string,
    notes: string)

  datatype VisionIdentity = VisionIdentity(
    brandName: string,
    designContext: seq<string>,
    coreAttributes: seq<string>,
    tagline: string)

  datatype VisionVisual = VisionVisual(
    colorPalette: seq<VisionColor>,
    typography: seq<VisionType>,
    logoUsage: seq<string>,
    imageryStyle: ImageryStyle)

  datatype VisionGuidelines = VisionGuidelines(
    brandIdentity: VisionIdentity,
    visualIdentity: VisionVisual,
    layoutAndComponents: LayoutAndComponents,
    voiceAndCopy: VoiceAndCopy,
    productionNotes: seq<string>,
    confidence: string)

  /** One entry of `per_image`: the image path and the parsed guidelines. */
  datatype VisionRecord = VisionRecord(image: Option<string>, guidelines: Option<VisionGuidelines>)

  const EmptyGuidelines := VisionGuidelines(
    VisionIdentity("", [], [], ""), VisionVisual([], [], [], EmptyImagery),
    EmptyLayout, EmptyVoice, [], "")

  /** `record.get("guidelines") or {}` */
  function Data(r: VisionRecord): VisionGuidelines {
    r.guidelines.GetOr(EmptyGuidelines)
  }

  /** `if image:` */
  predicate Truthy(image: Option<string>) {
    image.Some? && image.value != ""
  }

  // ---------------------------------------------------------------------
  // Sets of cleaned strings: `_maybe_add` and `_merge_sets`
  // ---------------------------------------------------------------------

  /** A value the set helpers keep: stripped and not empty. */
  predicate Clean(s: string) {
    s != "" && IsStripped(s)
  }

  predicate AllClean(s: seq<string>) {
    forall i :: 0 <= i < |s| ==> Clean(s[i])
  }

  /** `target.add(x)` */
  function Insert(s: seq<string>, x: string): (r: seq<string>)
    ensures forall y :: y in r <==> y in s || y == x
    ensures NoDup(s) ==> NoDup(r)
    ensures x in s ==> r == s
  {
    if x in s then s else s + [x]
  }

  /** `_maybe_add(value, target)`: the stripped value, when not empty. */
  function MaybeAdd(target: seq<string>, value: string): (r: seq<string>)
    ensures forall y :: y in r <==> y in target || (y == Strip(value) && y != "")
    ensures NoDup(target) ==> NoDup(r)
    ensures AllClean(target) ==> AllClean(r)
  {
    var cleaned := Strip(value);
    if cleaned == "" then target else Insert(target, cleaned)
  }

  /** `_merge_sets(source, target)`, item after item. */
  function MergeAll(target: seq<string>, source: seq<string>): (r: seq<string>)
    ensures NoDup(target) ==> NoDup(r)
    ensures AllClean(target) ==> AllClean(r)
    ensures forall y :: y in target ==> y in r
  {
    if source == [] then target
    else MaybeAdd(MergeAll(target, source[..|source| - 1]), source[|source| - 1])
  }

  /** `_merge_sets`: the loop over the source items. */
  method MergeSets(source: seq<string>, target: seq<string>) returns (r: seq<string>)
    ensures r == MergeAll(target, source)
  {
    r := target;
    var i := 0;
    while i < |source|
      invariant i <= |source|
      invariant r == MergeAll(target, source[..i])
    {
      assert source[..i + 1][..i] == source[..i];
      r := MaybeAdd(r, source[i]);
      i := i + 1;
    }
    assert source[..i] == source;
  }

  /** After merging, the set holds what it held before and the stripped,
      non-empty source items, and nothing else. */
  lemma {:induction false} MergeAllMembers(target: seq<string>, source: seq<string>, y: string)
    ensures y in MergeAll(target, source) <==>
            y in target || (y != "" && exists i :: 0 <= i < |source| && Strip(source[i]) == y)
  {
    if source != [] {
      var front := source[..|source| - 1];
      MergeAllMembers(target, front, y);
      ExistsSnoc(source, front, v => Strip(v) == y);
    }
  }

  /** A single `_maybe_add` is a merge of a one-item source. */
  lemma MaybeAddIsMerge(target: seq<string>, value: string)
    ensures MaybeAdd(target, value) == MergeAll(target, [value])
  {
    assert [value][..0] == [];
  }

  /** Merging in two steps is merging the concatenated sources. */
  lemma {:induction false} MergeAllAppend(target: seq<string>, a: seq<string>, b: seq<string>)
    ensures MergeAll(target, a + b) == MergeAll(MergeAll(target, a), b)
    decreases |b|
  {
    if b == [] {
      assert a + b == a;
    } else {
      var b' := b[..|b| - 1];
      assert (a + b)[..|a + b| - 1] == a + b';
      MergeAllAppend(target, a, b');
    }
  }

  /** Merging the same items a second time changes nothing. */
  lemma {:induction false} MergeAllIdempotent(target: seq<string>, source: seq<string>)
    ensures MergeAll(MergeAll(target, source), source) == MergeAll(target, source)
  {
    var once := MergeAll(target, source);
    forall i | 0 <= i < |source| && Strip(source[i]) != "" ensures Strip(source[i]) in once {
      MergeAllMembers(target, source, Strip(source[i]));
    }
    MergeAllAbsorbs(once, source);
  }

  lemma {:induction false} MergeAllAbsorbs(target: seq<string>, source: seq<string>)
    requires forall i :: 0 <= i < |source| && Strip(source[i]) != "" ==> Strip(source[i]) in target
    ensures MergeAll(target, source) == target
  {
    if source != [] {
      var front := source[..|source| - 1];
      forall i | 0 <= i < |front| && Strip(front[i]) != "" ensures Strip(front[i]) in target {
        assert front[i] == source[i];
      }
      MergeAllAbsorbs(target, front);
    }
  }

  /** Each merged set holds everything the record loop has seen, once. */
  lemma {:induction false} MergeAllFromEmpty(source: seq<string>, y: string)
    ensures NoDup(MergeAll([], source)) && AllClean(MergeAll([], source))
    ensures y in MergeAll([], source) <==> y != "" && exists i :: 0 <= i < |source| && Strip(source[i]) == y
  {
    MergeAllMembers([], source, y);
  }

  // ---------------------------------------------------------------------
  // The accumulator (`compiled` before `_finalize_compiled`)
  // ---------------------------------------------------------------------

  /** A `color_palette` value: the hex it was filed under and its sets. */
  datatype ColorAcc = ColorAcc(
    hex: string,
    names: seq<string>,
    usages: seq<string>,
    finishes: seq<string>,
    notes: seq<string>,
    sourceImages: seq<string>)

  /** A `typography` value: the first spelling of the family and its sets. */
  datatype TypeAcc = TypeAcc(
    family: string,
    styles: seq<string>,
    usages: seq<string>,
    sizeRanges: seq<string>,
    tracking: seq<string>,
    notes: seq<string>,
    sourceImages: seq<string>)

  datatype Acc<K(==)> = Acc(
    brand: BrandIdentity,
    palette: OrderedMap<string, ColorAcc>,
    typography: OrderedMap<K, TypeAcc>,
    logoUsage: seq<string>,
    imagery: ImageryStyle,
    layout: LayoutAndComponents,
    voice: VoiceAndCopy,
    productionNotes: seq<string>,
    confidenceNotes: seq<ConfidenceNote>)

  /** The `compiled` dictionary as it is initialised: every set and table empty. */
  function EmptyAcc<K(==)>(): (a: Acc<K>)
    ensures a.palette.Valid() && a.typography.Valid()
    ensures a.palette.keys == [] && a.typography.keys == []
  {
    Acc(EmptyBrand, EmptyMap(), EmptyMap(), [], EmptyImagery, EmptyLayout, EmptyVoice, [], [])
  }

  // ---------------------------------------------------------------------
  // One record
  // ---------------------------------------------------------------------

  function AddIdentity(b: BrandIdentity, v: VisionIdentity): BrandIdentity {
    BrandIdentity(MaybeAdd(b.brandNames, v.brandName),
                  MergeAll(b.designContext, v.designContext),
                  MergeAll(b.coreAttributes, v.coreAttributes),
                  MaybeAdd(b.taglines, v.tagline))
  }

  function MergeImagery(a: ImageryStyle, v: ImageryStyle): ImageryStyle {
    ImageryStyle(MergeAll(a.photography, v.photography),
                 MergeAll(a.illustration, v.illustration),
                 MergeAll(a.iconography, v.iconography),
                 MergeAll(a.texturesAndPatterns, v.texturesAndPatterns))
  }

  function MergeLayout(a: LayoutAndComponents, v: LayoutAndComponents): LayoutAndComponents {
    LayoutAndComponents(MergeAll(a.gridAndSpacing, v.gridAndSpacing),
                        MergeAll(a.keyComponents, v.keyComponents),
                        MergeAll(a.callToActionTreatment, v.callToActionTreatment),
                        MergeAll(a.interactionNotes, v.interactionNotes))
  }

  function MergeVoice(a: VoiceAndCopy, v: VoiceAndCopy): VoiceAndCopy {
    VoiceAndCopy(MergeAll(a.toneDescriptors, v.toneDescriptors),
                 MergeAll(a.messagingPillars, v.messagingPillars),
                 MergeAll(a.dos, v.dos),
                 MergeAll(a.donts, v.donts))
  }

  /** `(color.get("hex") or "").strip().upper()` */
  function HexOf(c: VisionColor): string {
    Upper(Strip(c.hex))
  }

  /** `if image: entry["source_images"].add(image)` */
  function AddImage(images: seq<string>, image: Option<string>): (r: seq<string>)
    ensures forall y :: y in r <==> y in images || (Truthy(image) && y == image.value)
    ensures NoDup(images) ==> NoDup(r)
    ensures "" !in images ==> "" !in r
  {
    if Truthy(image) then Insert(images, image.value) else images
  }

  /** One colour of the palette loop: skipped when its hex is blank, otherwise
      filed under its hex (a new entry at the end, a known one in place). */
  function AddColor(p: OrderedMap<string, ColorAcc>, c: VisionColor, image: Option<string>): (r: OrderedMap<string, ColorAcc>)
    requires p.Valid()
    ensures r.Valid()
  {
    var hex := HexOf(c);
    if hex == "" then p else p.Put(hex, ColorEntry(p, c, image))
  }

  /** The entry of `c`'s hex once `c` is merged into it (`setdefault`, then
      the `add`s). */
  function ColorEntry(p: OrderedMap<string, ColorAcc>, c: VisionColor, image: Option<string>): ColorAcc {
    var hex := HexOf(c);
    MergeColor(if hex in p.entries then p.entries[hex] else ColorAcc(hex, [], [], [], [], []), c, image)
  }

  /** The `add`s of one colour into its entry. */
  function MergeColor(e: ColorAcc, c: VisionColor, image: Option<string>): ColorAcc {
    ColorAcc(e.hex, MaybeAdd(e.names, c.name), MaybeAdd(e.usages, c.usage),
             MaybeAdd(e.finishes, c.finish), MaybeAdd(e.notes, c.notes),
             AddImage(e.sourceImages, image))
  }

  function AddColors(p: OrderedMap<string, ColorAcc>, cs: seq<VisionColor>, image: Option<string>): (r: OrderedMap<string, ColorAcc>)
    requires p.Valid()
    ensures r.Valid()
  {
    if cs == [] then p else AddColor(AddColors(p, cs[..|cs| - 1], image), cs[|cs| - 1], image)
  }

  lemma AddColorsSnoc(p: OrderedMap<string, ColorAcc>, cs: seq<VisionColor>, c: VisionColor, image: Option<string>)
    requires p.Valid()
    ensures AddColors(p, cs + [c], image) == AddColor(AddColors(p, cs, image), c, image)
  {
    assert (cs + [c])[..|cs|] == cs;
  }

  const Unspecified := "unspecified"

  /** `(typo.get("style") or "").strip() or "unspecified"` */
  function StyleOf(style: string): (r: string)
    ensures Clean(r)
  {
    var s := Strip(style);
    if s == "" then Unspecified else s
  }

  /** The table key of a typography item, built by `key` from the lower-cased
      family and style. */
  function TypeKey<K>(t: VisionType, key: (string, string) -> K): K {
    key(Lower(Strip(t.family)), Lower(StyleOf(t.style)))
  }

  /** One item of the typography loop: skipped when its family is blank,
      otherwise filed under its key, the first spelling of the family kept. */
  function AddType<K(==)>(m: OrderedMap<K, TypeAcc>, t: VisionType, image: Option<string>, key: (string, string) -> K): (r: OrderedMap<K, TypeAcc>)
    requires m.Valid()
    ensures r.Valid()
  {
    if Strip(t.family) == "" then m else m.Put(TypeKey(t, key), TypeEntry(m, t, image, key))
  }

  /** The entry of `t`'s key once `t` is merged into it. */
  function TypeEntry<K(==)>(m: OrderedMap<K, TypeAcc>, t: VisionType, image: Option<string>, key: (string, string) -> K): TypeAcc {
    var k := TypeKey(t, key);
    MergeType(if k in m.entries then m.entries[k] else TypeAcc(Strip(t.family), [], [], [], [], [], []), t, image)
  }

  /** The `add`s of one typography item into its entry. */
  function MergeType(e: TypeAcc, t: VisionType, image: Option<string>): TypeAcc {
    TypeAcc(e.family, Insert(e.styles, StyleOf(t.style)), MaybeAdd(e.usages, t.usage),
            MaybeAdd(e.sizeRanges, t.sizeRange), MaybeAdd(e.tracking, t.tracking),
            MaybeAdd(e.notes, t.notes), AddImage(e.sourceImages, image))
  }

  function AddTypes<K(==)>(m: OrderedMap<K, TypeAcc>, ts: seq<VisionType>, image: Option<string>, key: (string, string) -> K): (r: OrderedMap<K, TypeAcc>)
    requires m.Valid()
    ensures r.Valid()
  {
    if ts == [] then m else AddType(AddTypes(m, ts[..|ts| - 1], image, key), ts[|ts| - 1], image, key)
  }

  lemma AddTypesSnoc<K>(m: OrderedMap<K, TypeAcc>, ts: seq<VisionType>, t: VisionType, image: Option<string>, key: (string, string) -> K)
    requires m.Valid()
    ensures AddTypes(m, ts + [t], image, key) == AddType(AddTypes(m, ts, image, key), t, image, key)
  {
    assert (ts + [t])[..|ts|] == ts;
  }

  /** The confidence note of a record: present when both the stripped
      confidence and the image are non-empty. */
  function ConfidenceOf(r: VisionRecord): seq<ConfidenceNote> {
    var confidence := Strip(Data(r).confidence);
    if confidence != "" && Truthy(r.image) then [ConfidenceNote(r.image, Some(confidence))] else []
  }

  /** The body of the record loop. */
  function AddRecord<K(==)>(acc: Acc<K>, r: VisionRecord, key: (string, string) -> K): (a: Acc<K>)
    requires acc.palette.Valid() && acc.typography.Valid()
    ensures a.palette.Valid() && a.typography.Valid()
  {
    var d := Data(r);
    var v := d.visualIdentity;
    Acc(AddIdentity(acc.brand, d.brandIdentity),
        AddColors(acc.palette, v.colorPalette, r.image),
        AddTypes(acc.typography, v.typography, r.image, key),
        MergeAll(acc.logoUsage, v.logoUsage),
        MergeImagery(acc.imagery, v.imageryStyle),
        MergeLayout(acc.layout, d.layoutAndComponents),
        MergeVoice(acc.voice, d.voiceAndCopy),
        MergeAll(acc.productionNotes, d.productionNotes),
        acc.confidenceNotes + ConfidenceOf(r))
  }

  /** The record loop over `per_image`. */
  function Accumulate<K(==)>(rs: seq<VisionRecord>, key: (string, string) -> K): (a: Acc<K>)
    ensures a.palette.Valid() && a.typography.Valid()
  {
    if rs == [] then EmptyAcc() else AddRecord(Accumulate(rs[..|rs| - 1], key), rs[|rs| - 1], key)
  }

  // ---------------------------------------------------------------------
  // The loops, written as the source writes them
  // ---------------------------------------------------------------------

  /** The `add`s into one palette entry. */
  method UpdateColorEntry(entry: ColorAcc, color: VisionColor, image: Option<string>) returns (e: ColorAcc)
    ensures e == MergeColor(entry, color, image)
  {
    var images := entry.sourceImages;
    if Truthy(image) {
      images := Insert(images, image.value);
    }
    e := ColorAcc(entry.hex, MaybeAdd(entry.names, color.name), MaybeAdd(entry.usages, color.usage),
                  MaybeAdd(entry.finishes, color.finish), MaybeAdd(entry.notes, color.notes), images);
  }

  /** The palette loop of one record. */
  method MergePalette(colors: seq<VisionColor>, image: Option<string>, palette: OrderedMap<string, ColorAcc>)
    returns (p: OrderedMap<string, ColorAcc>)
    requires palette.Valid()
    ensures p == AddColors(palette, colors, image)
  {
    p := palette;
    var i := 0;
    assert colors[..0] == [];
    while i < |colors|
      invariant i <= |colors|
      invariant p == AddColors(palette, colors[..i], image)
    {
      var color := colors[i];
      PrefixNext(colors, i);
      AddColorsSnoc(palette, colors[..i], color, image);
      p := MergePaletteColor(p, color, image);
      i := i + 1;
    }
    assert colors[..i] == colors;
  }

  /** One colour of the palette loop. */
  method MergePaletteColor(palette: OrderedMap<string, ColorAcc>, color: VisionColor, image: Option<string>)
    returns (p: OrderedMap<string, ColorAcc>)
    requires palette.Valid()
    ensures p == AddColor(palette, color, image)
  {
    p := palette;
    var hex := HexOf(color);
    if hex != "" {
      var entry := if hex in p.entries then p.entries[hex] else ColorAcc(hex, [], [], [], [], []);
      entry := UpdateColorEntry(entry, color, image);
      p := p.Put(hex, entry);
    }
  }

  /** The `add`s into one typography entry. */
  method UpdateTypeEntry(entry: TypeAcc, typo: VisionType, image: Option<string>) returns (e: TypeAcc)
    ensures e == MergeType(entry, typo, image)
  {
    var images := entry.sourceImages;
    if Truthy(image) {
      images := Insert(images, image.value);
    }
    e := TypeAcc(entry.family, Insert(entry.styles, StyleOf(typo.style)), MaybeAdd(entry.usages, typo.usage),
                 MaybeAdd(entry.sizeRanges, typo.sizeRange), MaybeAdd(entry.tracking, typo.tracking),
                 MaybeAdd(entry.notes, typo.notes), images);
  }

  /** The typography loop of one record. */
  method MergeTypography<K(==)>(types: seq<VisionType>, image: Option<string>, table: OrderedMap<K, TypeAcc>, key: (string, string) -> K)
    returns (m: OrderedMap<K, TypeAcc>)
    requires table.Valid()
    ensures m == AddTypes(table, types, image, key)
  {
    m := table;
    var i := 0;
    assert types[..0] == [];
    while i < |types|
      invariant i <= |types|
      invariant m == AddTypes(table, types[..i], image, key)
    {
      var typo := types[i];
      PrefixNext(types, i);
      AddTypesSnoc(table, types[..i], typo, image, key);
      m := MergeTypographyItem(m, typo, image, key);
      i := i + 1;
    }
    assert types[..i] == types;
  }

  /** One typography item of the record loop. */
  method MergeTypographyItem<K(==)>(table: OrderedMap<K, TypeAcc>, typo: VisionType, image: Option<string>, key: (string, string) -> K)
    returns (m: OrderedMap<K, TypeAcc>)
    requires table.Valid()
    ensures m == AddType(table, typo, image, key)
  {
    m := table;
    var family := Strip(typo.family);
    if family != "" {
      var style := StyleOf(typo.style);
      var k := key(Lower(family), Lower(style));
      var entry := if k in m.entries then m.entries[k] else TypeAcc(family, [], [], [], [], [], []);
      entry := UpdateTypeEntry(entry, typo, image);
      m := m.Put(k, entry);
    }
  }

  /** The brand-identity part of the record loop. */
  method UpdateIdentity(brand: BrandIdentity, identity: VisionIdentity) returns (b: BrandIdentity)
    ensures b == AddIdentity(brand, identity)
  {
    var designContext := MergeSets(identity.designContext, brand.designContext);
    var coreAttributes := MergeSets(identity.coreAttributes, brand.coreAttributes);
    b := BrandIdentity(MaybeAdd(brand.brandNames, identity.brandName), designContext,
                       coreAttributes, MaybeAdd(brand.taglines, identity.tagline));
  }

  /** `for field in (...): _merge_sets(imagery.get(field, []), ...)` */
  method UpdateImagery(target: ImageryStyle, imagery: ImageryStyle) returns (r: ImageryStyle)
    ensures r == MergeImagery(target, imagery)
  {
    var photography := MergeSets(imagery.photography, target.photography);
    var illustration := MergeSets(imagery.illustration, target.illustration);
    var iconography := MergeSets(imagery.iconography, target.iconography);
    var textures := MergeSets(imagery.texturesAndPatterns, target.texturesAndPatterns);
    r := ImageryStyle(photography, illustration, iconography, textures);
  }

  method UpdateLayout(target: LayoutAndComponents, layout: LayoutAndComponents) returns (r: LayoutAndComponents)
    ensures r == MergeLayout(target, layout)
  {
    var grid := MergeSets(layout.gridAndSpacing, target.gridAndSpacing);
    var components := MergeSets(layout.keyComponents, target.keyComponents);
    var cta := MergeSets(layout.callToActionTreatment, target.callToActionTreatment);
    var interaction := MergeSets(layout.interactionNotes, target.interactionNotes);
    r := LayoutAndComponents(grid, components, cta, interaction);
  }

  method UpdateVoice(target: VoiceAndCopy, voice: VoiceAndCopy) returns (r: VoiceAndCopy)
    ensures r == MergeVoice(target, voice)
  {
    var tone := MergeSets(voice.toneDescriptors, target.toneDescriptors);
    var pillars := MergeSets(voice.messagingPillars, target.messagingPillars);
    var dos := MergeSets(voice.dos, target.dos);
    var donts := MergeSets(voice.donts, target.donts);
    r := VoiceAndCopy(tone, pillars, dos, donts);
  }

  /** The confidence note of one record, appended when there is one. */
  method UpdateConfidence(notes: seq<ConfidenceNote>, record: VisionRecord) returns (r: seq<ConfidenceNote>)
    ensures r == notes + ConfidenceOf(record)
  {
    r := notes;
    var confidence := Strip(Data(record).confidence);
    if confidence != "" && Truthy(record.image) {
      r := r + [ConfidenceNote(record.image, Some(confidence))];
    }
  }

  /** The body of the record loop, one merge after another. */
  method AddRecordStep<K(==)>(acc: Acc<K>, record: VisionRecord, key: (string, string) -> K) returns (a: Acc<K>)
    requires acc.palette.Valid() && acc.typography.Valid()
    ensures a == AddRecord(acc, record, key)
  {
    var image := record.image;
    var data := Data(record);
    var brand := UpdateIdentity(acc.brand, data.brandIdentity);
    var visual := data.visualIdentity;
    var palette := MergePalette(visual.colorPalette, image, acc.palette);
    var typography := MergeTypography(visual.typography, image, acc.typography, key);
    var logoUsage := MergeSets(visual.logoUsage, acc.logoUsage);
    var imagery := UpdateImagery(acc.imagery, visual.imageryStyle);
    var layout := UpdateLayout(acc.layout, data.layoutAndComponents);
    var voice := UpdateVoice(acc.voice, data.voiceAndCopy);
    var production := MergeSets(data.productionNotes, acc.productionNotes);

    var notes := UpdateConfidence(acc.confidenceNotes, record);
    a := Acc(brand, palette, typography, logoUsage, imagery, layout, voice, production, notes);
  }

  /** The record loop over all of `per_image`. */
  method AccumulateRecords<K(==)>(records: seq<VisionRecord>, key: (string, string) -> K) returns (acc: Acc<K>)
    ensures acc == Accumulate(records, key)
  {
    acc := EmptyAcc();
    var i := 0;
    while i < |records|
      invariant i <= |records|
      invariant acc == Accumulate(records[..i], key)
    {
      assert records[..i + 1][..i] == records[..i];
      acc := AddRecordStep(acc, records[i], key);
      i := i + 1;
    }
    assert records[..i] == records;
  }

  // ---------------------------------------------------------------------
  // What the accumulator keeps: clean, duplicate-free sets
  // ---------------------------------------------------------------------

  /** A set of cleaned values. */
  predicate SetOk(s: seq<string>) {
    NoDup(s) && AllClean(s)
  }

  /** A set of image paths: each added only when truthy. */
  predicate ImagesOk(s: seq<string>) {
    NoDup(s) && "" !in s
  }

  predicate ColorAccValid(e: ColorAcc) {
    SetOk(e.names) && SetOk(e.usages) && SetOk(e.finishes) && SetOk(e.notes) && ImagesOk(e.sourceImages)
  }

  predicate TypeAccValid(e: TypeAcc) {
    e.styles != [] && SetOk(e.styles) && SetOk(e.usages) && SetOk(e.sizeRanges)
    && SetOk(e.tracking) && SetOk(e.notes) && ImagesOk(e.sourceImages)
  }

  /** Each palette entry sits under its own hex. */
  predicate PaletteValid(p: OrderedMap<string, ColorAcc>) {
    p.Valid() && forall h :: h in p.entries ==> p.entries[h].hex == h && ColorAccValid(p.entries[h])
  }

  predicate TableValid<K>(m: OrderedMap<K, TypeAcc>) {
    m.Valid() && forall k :: k in m.entries ==> TypeAccValid(m.entries[k])
  }

  predicate BrandValid(b: BrandIdentity) {
    SetOk(b.brandNames) && SetOk(b.designContext) && SetOk(b.coreAttributes) && SetOk(b.taglines)
  }

  predicate ImageryValid(s: ImageryStyle) {
    SetOk(s.photography) && SetOk(s.illustration) && SetOk(s.iconography) && SetOk(s.texturesAndPatterns)
  }

  predicate LayoutValid(s: LayoutAndComponents) {
    SetOk(s.gridAndSpacing) && SetOk(s.keyComponents) && SetOk(s.callToActionTreatment) && SetOk(s.interactionNotes)
  }

  predicate VoiceValid(s: VoiceAndCopy) {
    SetOk(s.toneDescriptors) && SetOk(s.messagingPillars) && SetOk(s.dos) && SetOk(s.donts)
  }

  /** A confidence note names a truthy image and a cleaned note. */
  predicate NoteOk(n: ConfidenceNote) {
    Truthy(n.image) && n.note.Some? && Clean(n.note.value)
  }

  predicate AccValid<K>(a: Acc<K>) {
    BrandValid(a.brand) && PaletteValid(a.palette) && TableValid(a.typography) && SetOk(a.logoUsage)
    && ImageryValid(a.imagery) && LayoutValid(a.layout) && VoiceValid(a.voice) && SetOk(a.productionNotes)
    && (forall i :: 0 <= i < |a.confidenceNotes| ==> NoteOk(a.confidenceNotes[i]))
  }

  lemma MergeColorValid(e: ColorAcc, c: VisionColor, image: Option<string>)
    requires ColorAccValid(e)
    ensures ColorAccValid(MergeColor(e, c, image)) && MergeColor(e, c, image).hex == e.hex
  {
  }

  lemma AddColorValid(p: OrderedMap<string, ColorAcc>, c: VisionColor, image: Option<string>)
    requires PaletteValid(p)
    ensures PaletteValid(AddColor(p, c, image))
  {
    var hex := HexOf(c);
    if hex != "" {
      var e := if hex in p.entries then p.entries[hex] else ColorAcc(hex, [], [], [], [], []);
      MergeColorValid(e, c, image);
      assert ColorEntry(p, c, image) == MergeColor(e, c, image);
      PutColorValid(p, hex, ColorEntry(p, c, image));
    }
  }

  lemma PutColorValid(p: OrderedMap<string, ColorAcc>, hex: string, v: ColorAcc)
    requires PaletteValid(p) && v.hex == hex && ColorAccValid(v)
    ensures PaletteValid(p.Put(hex, v))
  {
  }

  lemma {:induction false} AddColorsValid(p: OrderedMap<string, ColorAcc>, cs: seq<VisionColor>, image: Option<string>)
    requires PaletteValid(p)
    ensures PaletteValid(AddColors(p, cs, image))
  {
    if cs != [] {
      AddColorsValid(p, cs[..|cs| - 1], image);
      AddColorValid(AddColors(p, cs[..|cs| - 1], image), cs[|cs| - 1], image);
    }
  }

  lemma MergeTypeValid(e: TypeAcc, t: VisionType, image: Option<string>)
    requires SetOk(e.styles) && SetOk(e.usages) && SetOk(e.sizeRanges) && SetOk(e.tracking)
    requires SetOk(e.notes) && ImagesOk(e.sourceImages)
    ensures TypeAccValid(MergeType(e, t, image))
  {
    var style := StyleOf(t.style);
    var styles := Insert(e.styles, style);
    assert style in styles;
    InsertOk(e.styles, style);
    MaybeAddOk(e.usages, t.usage);
    MaybeAddOk(e.sizeRanges, t.sizeRange);
    MaybeAddOk(e.tracking, t.tracking);
    MaybeAddOk(e.notes, t.notes);
    var images := AddImage(e.sourceImages, image);
    assert ImagesOk(images);
  }

  lemma InsertOk(s: seq<string>, x: string)
    requires SetOk(s) && Clean(x)
    ensures SetOk(Insert(s, x))
  {
  }

  lemma MaybeAddOk(s: seq<string>, v: string)
    requires SetOk(s)
    ensures SetOk(MaybeAdd(s, v))
  {
  }

  lemma AddTypeValid<K>(m: OrderedMap<K, TypeAcc>, t: VisionType, image: Option<string>, key: (string, string) -> K)
    requires TableValid(m)
    ensures TableValid(AddType(m, t, image, key))
  {
    if Strip(t.family) != "" {
      var k := TypeKey(t, key);
      var e := if k in m.entries then m.entries[k] else TypeAcc(Strip(t.family), [], [], [], [], [], []);
      MergeTypeValid(e, t, image);
      assert TypeEntry(m, t, image, key) == MergeType(e, t, image);
      PutTypeValid(m, k, TypeEntry(m, t, image, key));
    }
  }

  lemma PutTypeValid<K>(m: OrderedMap<K, TypeAcc>, k: K, v: TypeAcc)
    requires TableValid(m) && TypeAccValid(v)
    ensures TableValid(m.Put(k, v))
  {
  }

  lemma {:induction false} AddTypesValid<K>(m: OrderedMap<K, TypeAcc>, ts: seq<VisionType>, image: Option<string>, key: (string, string) -> K)
    requires TableValid(m)
    ensures TableValid(AddTypes(m, ts, image, key))
  {
    if ts != [] {
      AddTypesValid(m, ts[..|ts| - 1], image, key);
      AddTypeValid(AddTypes(m, ts[..|ts| - 1], image, key), ts[|ts| - 1], image, key);
    }
  }

  lemma ConfidenceOk(r: VisionRecord)
    ensures forall i :: 0 <= i < |ConfidenceOf(r)| ==> NoteOk(ConfidenceOf(r)[i])
  {
  }

  /** Everything the record loop builds is clean and duplicate-free, every
      palette entry sits under its hex and every typography entry has a style. */
  lemma {:induction false} AccumulateValid<K>(rs: seq<VisionRecord>, key: (string, string) -> K)
    ensures AccValid(Accumulate(rs, key))
  {
    if rs != [] {
      var a := Accumulate(rs[..|rs| - 1], key);
      var r := rs[|rs| - 1];
      AccumulateValid(rs[..|rs| - 1], key);
      var v := Data(r).visualIdentity;
      AddColorsValid(a.palette, v.colorPalette, r.image);
      AddTypesValid(a.typography, v.typography, r.image, key);
      ConfidenceOk(r);
      var notes := a.confidenceNotes + ConfidenceOf(r);
      assert forall i :: 0 <= i < |notes| ==> NoteOk(notes[i]) by {
        forall i | 0 <= i < |notes| ensures NoteOk(notes[i]) {
          if i >= |a.confidenceNotes| {
            assert notes[i] == ConfidenceOf(r)[i - |a.confidenceNotes|];
          }
        }
      }
    }
  }

  // ---------------------------------------------------------------------
  // The keyed tables: one entry per distinct key, in first-seen order
  // ---------------------------------------------------------------------

  function ColorsOf(r: VisionRecord): seq<VisionColor> {
    Data(r).visualIdentity.colorPalette
  }

  function TypesOf(r: VisionRecord): seq<VisionType> {
    Data(r).visualIdentity.typography
  }

  /** The hex a colour is filed under, if any. */
  function HexItem(c: VisionColor): seq<string> {
    if HexOf(c) == "" then [] else [HexOf(c)]
  }

  /** The hexes the palette loop files, in order, repeats included. */
  function Hexes(cs: seq<VisionColor>): seq<string> {
    FlatMap(cs, HexItem)
  }

  /** A typography item the loop files: one with a non-blank family. */
  function Named(t: VisionType): seq<VisionType> {
    if Strip(t.family) == "" then [] else [t]
  }

  function NamedTypes(ts: seq<VisionType>): seq<VisionType> {
    FlatMap(ts, Named)
  }

  /** `TypeKey` with the key builder fixed. */
  function KeyFn<K>(key: (string, string) -> K): VisionType -> K {
    t => TypeKey(t, key)
  }

  /** The keys of the items, in order. */
  function KeysOf<K>(ns: seq<VisionType>, f: VisionType -> K): (ks: seq<K>)
    ensures |ks| == |ns| && forall i :: 0 <= i < |ns| ==> ks[i] == f(ns[i])
  {
    seq(|ns|, i requires 0 <= i < |ns| => f(ns[i]))
  }

  lemma {:induction false} AddColorsKeys(p: OrderedMap<string, ColorAcc>, prior: seq<string>, cs: seq<VisionColor>, image: Option<string>)
    requires p.Valid() && p.keys == Dedup(prior)
    ensures AddColors(p, cs, image).keys == Dedup(prior + Hexes(cs))
  {
    if cs == [] {
      assert prior + Hexes(cs) == prior;
    } else {
      var front := cs[..|cs| - 1];
      var c := cs[|cs| - 1];
      AddColorsKeys(p, prior, front, image);
      var q := AddColors(p, front, image);
      assert AddColors(p, cs, image) == AddColor(q, c, image);
      assert Hexes(cs) == Hexes(front) + HexItem(c);
      AppendAssoc(prior, Hexes(front), HexItem(c));
      AddColorKeys(q, prior + Hexes(front), c, image);
    }
  }

  /** One colour: a new non-blank hex goes to the end of the keys. */
  lemma AddColorKeys(q: OrderedMap<string, ColorAcc>, before: seq<string>, c: VisionColor, image: Option<string>)
    requires q.Valid() && q.keys == Dedup(before)
    ensures AddColor(q, c, image).keys == Dedup(before + HexItem(c))
  {
    if HexOf(c) != "" {
      DedupSnoc(before, HexOf(c));
      DedupProps(before);
    } else {
      assert before + HexItem(c) == before;
    }
  }

  /** The palette holds one entry per distinct non-blank upper-cased hex of all
      the records' colours, in the order each hex was first seen. */
  lemma {:induction false} AccumulatePaletteKeys<K>(rs: seq<VisionRecord>, key: (string, string) -> K)
    ensures Accumulate(rs, key).palette.keys == Dedup(Hexes(FlatMap(rs, ColorsOf)))
  {
    if rs != [] {
      var front := rs[..|rs| - 1];
      var r := rs[|rs| - 1];
      AccumulatePaletteKeys(front, key);
      var a := Accumulate(front, key);
      AddColorsKeys(a.palette, Hexes(FlatMap(front, ColorsOf)), ColorsOf(r), r.image);
      FlatMapAppend(FlatMap(front, ColorsOf), ColorsOf(r), HexItem);
    }
  }

  /** The typography table holds one entry per distinct key of the items seen
      so far, in first-seen order, each keeping the family as the first item
      with that key spelled it. */
  predicate TypeTableInv<K(==)>(named: seq<VisionType>, m: OrderedMap<K, TypeAcc>, f: VisionType -> K) {
    m.Valid() && m.keys == Dedup(KeysOf(named, f)) &&
    forall k :: k in m.entries ==>
      k in KeysOf(named, f) && m.entries[k].family == Strip(named[FirstIndex(KeysOf(named, f), k)].family)
  }

  lemma KeysOfSnoc<K>(a: seq<VisionType>, t: VisionType, f: VisionType -> K)
    ensures KeysOf(a + [t], f) == KeysOf(a, f) + [f(t)]
  {
  }

  /** Filing a new item under its key: a new key goes to the end with the
      item's family, a known key keeps its entry's family. */
  lemma TablePutInv<K>(m: OrderedMap<K, TypeAcc>, named: seq<VisionType>, t: VisionType, v: TypeAcc, f: VisionType -> K)
    requires TypeTableInv(named, m, f)
    requires v.family == if f(t) in m.entries then m.entries[f(t)].family else Strip(t.family)
    ensures TypeTableInv(named + [t], m.Put(f(t), v), f)
  {
    KeysOfSnoc(named, t, f);
    DedupSnoc(KeysOf(named, f), f(t));
    DedupProps(KeysOf(named, f));
    TablePutEntries(m, named, t, v, f);
  }

  lemma TablePutEntries<K>(m: OrderedMap<K, TypeAcc>, named: seq<VisionType>, t: VisionType, v: TypeAcc, f: VisionType -> K)
    requires TypeTableInv(named, m, f)
    requires v.family == if f(t) in m.entries then m.entries[f(t)].family else Strip(t.family)
    ensures var r, named' := m.Put(f(t), v), named + [t];
      forall k' :: k' in r.entries ==>
        k' in KeysOf(named', f) && r.entries[k'].family == Strip(named'[FirstIndex(KeysOf(named', f), k')].family)
  {
    var k := f(t);
    var named' := named + [t];
    var ks := KeysOf(named, f);
    KeysOfSnoc(named, t, f);
    DedupProps(ks);
    var r := m.Put(k, v);
    forall k' | k' in r.entries
      ensures k' in KeysOf(named', f) && r.entries[k'].family == Strip(named'[FirstIndex(KeysOf(named', f), k')].family)
    {
      if k' in m.entries {
        FirstIndexPrefix(ks, [k], k');
        assert named'[FirstIndex(ks, k')] == named[FirstIndex(ks, k')];
      } else {
        assert k' == k && k !in ks;
        FirstIndexAppended(ks, k);
      }
    }
  }

  lemma AddTypeInv<K>(m: OrderedMap<K, TypeAcc>, named: seq<VisionType>, t: VisionType, image: Option<string>, key: (string, string) -> K)
    requires TypeTableInv(named, m, KeyFn(key))
    ensures TypeTableInv(named + Named(t), AddType(m, t, image, key), KeyFn(key))
  {
    var m' := AddType(m, t, image, key);
    if Strip(t.family) == "" {
      assert Named(t) == [] && m' == m;
      assert named + [] == named;
    } else {
      var k := TypeKey(t, key);
      var v := TypeEntry(m, t, image, key);
      assert Named(t) == [t] && m' == m.Put(k, v);
      assert KeyFn(key)(t) == k;
      assert v.family == if k in m.entries then m.entries[k].family else Strip(t.family);
      TablePutInv(m, named, t, v, KeyFn(key));
    }
  }

  lemma {:induction false} AddTypesInv<K>(m: OrderedMap<K, TypeAcc>, named: seq<VisionType>, ts: seq<VisionType>, image: Option<string>, key: (string, string) -> K)
    requires TypeTableInv(named, m, KeyFn(key))
    ensures TypeTableInv(named + NamedTypes(ts), AddTypes(m, ts, image, key), KeyFn(key))
  {
    if ts == [] {
      assert named + NamedTypes(ts) == named;
    } else {
      var front := ts[..|ts| - 1];
      var t := ts[|ts| - 1];
      AddTypesInv(m, named, front, image, key);
      AddTypeInv(AddTypes(m, front, image, key), named + NamedTypes(front), t, image, key);
      AppendAssoc(named, NamedTypes(front), Named(t));
    }
  }

  /** The typography table after the record loop, against all the records'
      items with a non-blank family. */
  lemma {:induction false} AccumulateTypeTable<K>(rs: seq<VisionRecord>, key: (string, string) -> K)
    ensures TypeTableInv(NamedTypes(FlatMap(rs, TypesOf)), Accumulate(rs, key).typography, KeyFn(key))
  {
    if rs == [] {
      assert KeysOf(NamedTypes(FlatMap(rs, TypesOf)), KeyFn(key)) == [];
    } else {
      var front := rs[..|rs| - 1];
      var r := rs[|rs| - 1];
      AccumulateTypeTable(front, key);
      var a := Accumulate(front, key);
      AddTypesInv(a.typography, NamedTypes(FlatMap(front, TypesOf)), TypesOf(r), r.image, key);
      FlatMapAppend(FlatMap(front, TypesOf), TypesOf(r), Named);
    }
  }

  // ---------------------------------------------------------------------
  // `_finalize_compiled`
  // ---------------------------------------------------------------------

  /** The styles without `x`, in order. */
  function Remove(s: seq<string>, x: string): (r: seq<string>)
    ensures forall y :: y in r <==> y in s && y != x
    ensures NoDup(s) ==> NoDup(r)
  {
    if s == [] then []
    else
      SnocFront(s);
      assert NoDup(s) ==> NoDup(s[..|s| - 1]) && s[|s| - 1] !in s[..|s| - 1];
      var front := Remove(s[..|s| - 1], x);
      if s[|s| - 1] == x then front else front + [s[|s| - 1]]
  }

  /** The styles `_finalize_compiled` keeps: the named ones, sorted, or
      `["unspecified"]` when that is the only style there is. */
  function FinalStyles(styles: seq<string>): (r: seq<string>)
    requires NoDup(styles)
    ensures StrictlyAscending(r)
    ensures forall x :: x != Unspecified ==> (x in r <==> x in styles)
    ensures Unspecified in r <==> Unspecified in styles && forall y :: y in styles ==> y == Unspecified
    ensures Unspecified in r ==> r == [Unspecified]
    ensures r == [] <==> styles == []
  {
    var kept := Remove(styles, Unspecified);
    assert kept != [] ==> kept[0] in kept;
    var named := SortStrings(kept);
    if named == [] && Unspecified in styles then [Unspecified] else named
  }

  function FinalizeColor(e: ColorAcc): PaletteEntry
    requires ColorAccValid(e)
  {
    PaletteEntry(Some(e.hex), SortStrings(e.names), SortStrings(e.usages), SortStrings(e.finishes),
                 SortStrings(e.notes), SortStrings(e.sourceImages))
  }

  function FinalizeType(e: TypeAcc): TypographyEntry
    requires TypeAccValid(e)
  {
    TypographyEntry(e.family, FinalStyles(e.styles), SortStrings(e.usages), SortStrings(e.sizeRanges),
                    SortStrings(e.tracking), SortStrings(e.notes), SortStrings(e.sourceImages))
  }

  /** `item["hex"]`, the palette's sort key. */
  function EntryHex(e: PaletteEntry): string {
    e.hex.GetOr("")
  }

  /** `item["family"].lower()`, the typography's sort key. */
  function FamilyKey(e: TypographyEntry): string {
    Lower(e.family)
  }

  /** The finalized palette entries in table order, before sorting. */
  function PaletteEntries(p: OrderedMap<string, ColorAcc>): (es: seq<PaletteEntry>)
    requires PaletteValid(p)
    ensures |es| == |p.keys|
    ensures forall i :: 0 <= i < |p.keys| ==> es[i] == FinalizeColor(p.entries[p.keys[i]])
  {
    seq(|p.keys|, i requires 0 <= i < |p.keys| => FinalizeColor(p.entries[p.keys[i]]))
  }

  function TypeEntries<K>(m: OrderedMap<K, TypeAcc>): (es: seq<TypographyEntry>)
    requires TableValid(m)
    ensures |es| == |m.keys|
    ensures forall i :: 0 <= i < |m.keys| ==> es[i] == FinalizeType(m.entries[m.keys[i]])
  {
    seq(|m.keys|, i requires 0 <= i < |m.keys| => FinalizeType(m.entries[m.keys[i]]))
  }

  function SortBrand(b: BrandIdentity): BrandIdentity
    requires BrandValid(b)
  {
    BrandIdentity(SortStrings(b.brandNames), SortStrings(b.designContext),
                  SortStrings(b.coreAttributes), SortStrings(b.taglines))
  }

  function SortImagery(s: ImageryStyle): ImageryStyle
    requires ImageryValid(s)
  {
    ImageryStyle(SortStrings(s.photography), SortStrings(s.illustration),
                 SortStrings(s.iconography), SortStrings(s.texturesAndPatterns))
  }

  function SortLayout(s: LayoutAndComponents): LayoutAndComponents
    requires LayoutValid(s)
  {
    LayoutAndComponents(SortStrings(s.gridAndSpacing), SortStrings(s.keyComponents),
                        SortStrings(s.callToActionTreatment), SortStrings(s.interactionNotes))
  }

  function SortVoice(s: VoiceAndCopy): VoiceAndCopy
    requires VoiceValid(s)
  {
    VoiceAndCopy(SortStrings(s.toneDescriptors), SortStrings(s.messagingPillars),
                 SortStrings(s.dos), SortStrings(s.donts))
  }

  /** `_finalize_compiled(compiled)` */
  function Finalize<K>(a: Acc<K>): Compiled
    requires AccValid(a)
  {
    Compiled(SortBrand(a.brand),
             VisualIdentity(SortAsc(PaletteEntries(a.palette), EntryHex),
                            SortAsc(TypeEntries(a.typography), FamilyKey),
                            SortStrings(a.logoUsage), SortImagery(a.imagery)),
             SortLayout(a.layout), SortVoice(a.voice), SortStrings(a.productionNotes),
             a.confidenceNotes)
  }

  /** What `aggregate_guidelines` returns as `compiled` for these records. */
  function Compile<K(==)>(rs: seq<VisionRecord>, key: (string, string) -> K): Compiled {
    AccumulateValid(rs, key);
    Finalize(Accumulate(rs, key))
  }

  /** The palette loop of `_finalize_compiled`, then its sort. */
  method FinalizePalette(p: OrderedMap<string, ColorAcc>) returns (out: seq<PaletteEntry>)
    requires PaletteValid(p)
    ensures out == SortAsc(PaletteEntries(p), EntryHex)
  {
    var entries: seq<PaletteEntry> := [];
    var i := 0;
    while i < |p.keys|
      invariant i <= |p.keys|
      invariant entries == PaletteEntries(p)[..i]
    {
      var color := p.entries[p.keys[i]];
      entries := entries + [PaletteEntry(Some(color.hex), SortStrings(color.names), SortStrings(color.usages),
                                         SortStrings(color.finishes), SortStrings(color.notes),
                                         SortStrings(color.sourceImages))];
      i := i + 1;
    }
    assert entries == PaletteEntries(p);
    out := SortAsc(entries, EntryHex);
  }

  /** The typography loop of `_finalize_compiled`, then its sort. */
  method FinalizeTypography<K>(m: OrderedMap<K, TypeAcc>) returns (out: seq<TypographyEntry>)
    requires TableValid(m)
    ensures out == SortAsc(TypeEntries(m), FamilyKey)
  {
    var entries: seq<TypographyEntry> := [];
    var i := 0;
    while i < |m.keys|
      invariant i <= |m.keys|
      invariant entries == TypeEntries(m)[..i]
    {
      var entry := m.entries[m.keys[i]];
      var styles := SortStrings(Remove(entry.styles, Unspecified));
      if styles == [] && Unspecified in entry.styles {
        styles := [Unspecified];
      }
      entries := entries + [TypographyEntry(entry.family, styles, SortStrings(entry.usages),
                                            SortStrings(entry.sizeRanges), SortStrings(entry.tracking),
                                            SortStrings(entry.notes), SortStrings(entry.sourceImages))];
      i := i + 1;
    }
    assert entries == TypeEntries(m);
    out := SortAsc(entries, FamilyKey);
  }

  /** `_finalize_compiled` */
  method FinalizeCompiled<K>(a: Acc<K>) returns (c: Compiled)
    requires AccValid(a)
    ensures c == Finalize(a)
  {
    var palette := FinalizePalette(a.palette);
    var typography := FinalizeTypography(a.typography);
    c := Compiled(SortBrand(a.brand),
                  VisualIdentity(palette, typography, SortStrings(a.logoUsage), SortImagery(a.imagery)),
                  SortLayout(a.layout), SortVoice(a.voice), SortStrings(a.productionNotes),
                  a.confidenceNotes);
  }

  /** The dictionary `aggregate_guidelines` returns. */
  datatype Aggregate = Aggregate(imagesAnalyzed: nat, compiled: Compiled, perImage: seq<VisionRecord>)
}
