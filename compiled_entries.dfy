// What `aggregate_guidelines` puts inside each palette and typography entry:
// every finalized list of an entry is sorted, duplicate-free and holds exactly
// the cleaned values of the items filed under that entry's key, and its
// source images are exactly the non-empty image paths of those items.

module CompiledEntries {
  import opened Collections
  import opened AsciiStrings
  import opened Sorting
  import opened DesignSpec
  import opened Compilation

  // ---------------------------------------------------------------------
  // Items tagged with the image of their record
  // ---------------------------------------------------------------------

  /** The items of one record, each paired with the record's image. */
  function Tagged<T>(xs: seq<T>, image: Option<string>): (r: seq<(T, Option<string>)>)
    ensures |r| == |xs| && forall i :: 0 <= i < |xs| ==> r[i] == (xs[i], image)
  {
    if xs == [] then [] else Tagged(xs[..|xs| - 1], image) + [(xs[|xs| - 1], image)]
  }

  function TaggedColors(r: VisionRecord): seq<(VisionColor, Option<string>)> {
    Tagged(ColorsOf(r), r.image)
  }

  function TaggedTypes(r: VisionRecord): seq<(VisionType, Option<string>)> {
    Tagged(TypesOf(r), r.image)
  }

  /** Every colour of every record, in record order, with its record's image. */
  function ColorEvents(rs: seq<VisionRecord>): seq<(VisionColor, Option<string>)> {
    FlatMap(rs, TaggedColors)
  }

  /** Every typography item of every record, in order, with its record's image. */
  function TypeEvents(rs: seq<VisionRecord>): seq<(VisionType, Option<string>)> {
    FlatMap(rs, TaggedTypes)
  }

  // ---------------------------------------------------------------------
  // One set field of a keyed table, against the items filed so far
  // ---------------------------------------------------------------------

  /** The set `field` of the entry under `k`, or nothing when there is none. */
  function FieldAt<K, V>(m: OrderedMap<K, V>, k: K, field: V -> seq<string>): seq<string> {
    if k in m.entries then field(m.entries[k]) else []
  }

  /** Some item of `es` that the loop files (`filed`) under `k` offers `y`. */
  ghost predicate Offered<T, K>(es: seq<(T, Option<string>)>, filed: T -> bool, keyOf: T -> K,
                                value: ((T, Option<string>)) -> string, k: K, y: string)
  {
    exists i :: 0 <= i < |es| && filed(es[i].0) && keyOf(es[i].0) == k && value(es[i]) == y
  }

  /** Under every key, the set `field` holds exactly the non-empty values
      offered by the items filed under that key. */
  ghost predicate Column<T, K(!new), V>(m: OrderedMap<K, V>, es: seq<(T, Option<string>)>, filed: T -> bool,
                                  keyOf: T -> K, field: V -> seq<string>, value: ((T, Option<string>)) -> string)
  {
    forall k, y :: y in FieldAt(m, k, field) <==> y != "" && Offered(es, filed, keyOf, value, k, y)
  }

  lemma OfferedSnoc<T, K>(es: seq<(T, Option<string>)>, e: (T, Option<string>), filed: T -> bool, keyOf: T -> K,
                          value: ((T, Option<string>)) -> string, k: K, y: string)
    ensures Offered(es + [e], filed, keyOf, value, k, y) <==>
              Offered(es, filed, keyOf, value, k, y) || (filed(e.0) && keyOf(e.0) == k && value(e) == y)
  {
    var es' := es + [e];
    if Offered(es, filed, keyOf, value, k, y) {
      var i :| 0 <= i < |es| && filed(es[i].0) && keyOf(es[i].0) == k && value(es[i]) == y;
      assert es'[i] == es[i];
    }
    if filed(e.0) && keyOf(e.0) == k && value(e) == y {
      assert es'[|es|] == e;
    }
    if Offered(es', filed, keyOf, value, k, y) {
      var i :| 0 <= i < |es'| && filed(es'[i].0) && keyOf(es'[i].0) == k && value(es'[i]) == y;
      if i < |es| {
        assert es'[i] == es[i];
      }
    }
  }

  /** One filed item adds its value, when not empty, to its own key's set and
      changes no other key's set. */
  lemma {:induction false} ColumnSnoc<T, K(!new), V>(m: OrderedMap<K, V>, m': OrderedMap<K, V>, es: seq<(T, Option<string>)>,
                                               e: (T, Option<string>), filed: T -> bool, keyOf: T -> K,
                                               field: V -> seq<string>, value: ((T, Option<string>)) -> string)
    requires Column(m, es, filed, keyOf, field, value)
    requires forall k, y :: y in FieldAt(m', k, field) <==>
               y in FieldAt(m, k, field) || (filed(e.0) && k == keyOf(e.0) && y != "" && y == value(e))
    ensures Column(m', es + [e], filed, keyOf, field, value)
  {
    forall k, y ensures y in FieldAt(m', k, field) <==> y != "" && Offered(es + [e], filed, keyOf, value, k, y) {
      OfferedSnoc(es, e, filed, keyOf, value, k, y);
    }
  }

  // ---------------------------------------------------------------------
  // The palette
  // ---------------------------------------------------------------------

  /** The palette loop files a colour when its normalised hex is not blank. */
  predicate HasHex(c: VisionColor) {
    HexOf(c) != ""
  }

  function Names(e: ColorAcc): seq<string> { e.names }
  function Usages(e: ColorAcc): seq<string> { e.usages }
  function Finishes(e: ColorAcc): seq<string> { e.finishes }
  function ColorNotes(e: ColorAcc): seq<string> { e.notes }
  function ColorImages(e: ColorAcc): seq<string> { e.sourceImages }

  function NameOf(e: (VisionColor, Option<string>)): string { Strip(e.0.name) }
  function UsageOf(e: (VisionColor, Option<string>)): string { Strip(e.0.usage) }
  function FinishOf(e: (VisionColor, Option<string>)): string { Strip(e.0.finish) }
  function ColorNoteOf(e: (VisionColor, Option<string>)): string { Strip(e.0.notes) }

  /** The image an item offers: its record's path, `""` when there is none. */
  function ImageOf<T>(e: (T, Option<string>)): string { e.1.GetOr("") }

  /** Merging a colour adds its non-empty value to the set, and a new entry
      starts with the set empty. */
  ghost predicate ColorFieldAdds(field: ColorAcc -> seq<string>, value: ((VisionColor, Option<string>)) -> string) {
    && (forall h :: field(ColorAcc(h, [], [], [], [], [])) == [])
    && forall acc, c, image, y :: y in field(MergeColor(acc, c, image)) <==>
         y in field(acc) || (y != "" && y == value((c, image)))
  }

  lemma ColorFieldsAdd()
    ensures ColorFieldAdds(Names, NameOf) && ColorFieldAdds(Usages, UsageOf)
    ensures ColorFieldAdds(Finishes, FinishOf) && ColorFieldAdds(ColorNotes, ColorNoteOf)
    ensures ColorFieldAdds(ColorImages, ImageOf)
  {
  }

  lemma AddColorColumn(p: OrderedMap<string, ColorAcc>, es: seq<(VisionColor, Option<string>)>, c: VisionColor,
                       image: Option<string>, field: ColorAcc -> seq<string>, value: ((VisionColor, Option<string>)) -> string)
    requires p.Valid() && ColorFieldAdds(field, value)
    requires Column(p, es, HasHex, HexOf, field, value)
    ensures Column(AddColor(p, c, image), es + [(c, image)], HasHex, HexOf, field, value)
  {
    var p' := AddColor(p, c, image);
    forall k, y ensures y in FieldAt(p', k, field) <==>
      y in FieldAt(p, k, field) || (HasHex(c) && k == HexOf(c) && y != "" && y == value((c, image)))
    {
      if HasHex(c) && k == HexOf(c) {
        var acc := if k in p.entries then p.entries[k] else ColorAcc(k, [], [], [], [], []);
        assert p'.entries[k] == MergeColor(acc, c, image);
        assert FieldAt(p, k, field) == field(acc);
      }
    }
    ColumnSnoc(p, p', es, (c, image), HasHex, HexOf, field, value);
  }

  lemma {:induction false} AddColorsColumn(p: OrderedMap<string, ColorAcc>, es: seq<(VisionColor, Option<string>)>,
                                           cs: seq<VisionColor>, image: Option<string>,
                                           field: ColorAcc -> seq<string>, value: ((VisionColor, Option<string>)) -> string)
    requires p.Valid() && ColorFieldAdds(field, value)
    requires Column(p, es, HasHex, HexOf, field, value)
    ensures Column(AddColors(p, cs, image), es + Tagged(cs, image), HasHex, HexOf, field, value)
  {
    if cs == [] {
      assert es + Tagged(cs, image) == es;
    } else {
      var front := cs[..|cs| - 1];
      AddColorsColumn(p, es, front, image, field, value);
      AddColorColumn(AddColors(p, front, image), es + Tagged(front, image), cs[|cs| - 1], image, field, value);
      AppendAssoc(es, Tagged(front, image), [(cs[|cs| - 1], image)]);
    }
  }

  /** After the record loop, each palette set holds under every hex exactly the
      non-empty values of the colours filed under it. */
  lemma {:induction false} PaletteColumn<K>(rs: seq<VisionRecord>, key: (string, string) -> K,
                                            field: ColorAcc -> seq<string>, value: ((VisionColor, Option<string>)) -> string)
    requires ColorFieldAdds(field, value)
    ensures Column(Accumulate(rs, key).palette, ColorEvents(rs), HasHex, HexOf, field, value)
  {
    if rs == [] {
      assert forall h :: FieldAt(Accumulate(rs, key).palette, h, field) == [];
    } else {
      var front := rs[..|rs| - 1];
      var r := rs[|rs| - 1];
      PaletteColumn(front, key, field, value);
      AddColorsColumn(Accumulate(front, key).palette, ColorEvents(front), ColorsOf(r), r.image, field, value);
    }
  }

  /** A finalized list of an entry: strictly ascending, and holding exactly
      the non-empty values offered by the items filed under `k`. */
  ghost predicate FiledUnder<T, K>(out: seq<string>, es: seq<(T, Option<string>)>, filed: T -> bool, keyOf: T -> K,
                                   value: ((T, Option<string>)) -> string, k: K)
  {
    StrictlyAscending(out) && forall y :: y in out <==> y != "" && Offered(es, filed, keyOf, value, k, y)
  }

  /** The contents of the finalized palette entry for hex `h`. */
  ghost predicate ColorContents(e: PaletteEntry, es: seq<(VisionColor, Option<string>)>, h: string) {
    && FiledUnder(e.names, es, HasHex, HexOf, NameOf, h)
    && FiledUnder(e.usageNotes, es, HasHex, HexOf, UsageOf, h)
    && FiledUnder(e.finishes, es, HasHex, HexOf, FinishOf, h)
    && FiledUnder(e.additionalNotes, es, HasHex, HexOf, ColorNoteOf, h)
    && FiledUnder(e.sourceImages, es, HasHex, HexOf, ImageOf, h)
  }

  /** Sorting a set of the table keeps its members. */
  lemma SortedColumn<T, K(!new), V>(m: OrderedMap<K, V>, es: seq<(T, Option<string>)>, filed: T -> bool, keyOf: T -> K,
                              field: V -> seq<string>, value: ((T, Option<string>)) -> string, k: K)
    requires Column(m, es, filed, keyOf, field, value) && k in m.entries && NoDup(field(m.entries[k]))
    ensures FiledUnder(SortStrings(field(m.entries[k])), es, filed, keyOf, value, k)
  {
    forall y ensures y in SortStrings(field(m.entries[k])) <==> y != "" && Offered(es, filed, keyOf, value, k, y) {
      assert y in FieldAt(m, k, field) <==> y != "" && Offered(es, filed, keyOf, value, k, y);
    }
  }

  /** The finalized entry of every hex of the accumulated table. */
  lemma PaletteEntryContents<K>(rs: seq<VisionRecord>, key: (string, string) -> K, j: nat)
    requires PaletteValid(Accumulate(rs, key).palette) && j < |Accumulate(rs, key).palette.keys|
    ensures var p := Accumulate(rs, key).palette;
      PaletteEntries(p)[j].hex == Some(p.keys[j]) && ColorContents(PaletteEntries(p)[j], ColorEvents(rs), p.keys[j])
  {
    var p := Accumulate(rs, key).palette;
    var es := ColorEvents(rs);
    var h := p.keys[j];
    assert h in p.entries;
    assert PaletteEntries(p)[j] == FinalizeColor(p.entries[h]);
    ColorFieldsAdd();
    PaletteColumn(rs, key, Names, NameOf);
    PaletteColumn(rs, key, Usages, UsageOf);
    PaletteColumn(rs, key, Finishes, FinishOf);
    PaletteColumn(rs, key, ColorNotes, ColorNoteOf);
    PaletteColumn(rs, key, ColorImages, ImageOf);
    SortedColumn(p, es, HasHex, HexOf, Names, NameOf, h);
    SortedColumn(p, es, HasHex, HexOf, Usages, UsageOf, h);
    SortedColumn(p, es, HasHex, HexOf, Finishes, FinishOf, h);
    SortedColumn(p, es, HasHex, HexOf, ColorNotes, ColorNoteOf, h);
    SortedColumn(p, es, HasHex, HexOf, ColorImages, ImageOf, h);
  }

  /** Every entry of the compiled palette holds, for its hex, the sorted
      stripped names, usages, finishes and notes of the colours filed under
      that hex, and the paths of the images those colours came from. */
  lemma CompilePaletteContents<K>(rs: seq<VisionRecord>, key: (string, string) -> K)
    ensures var pal := Compile(rs, key).visualIdentity.colorPalette;
      forall i :: 0 <= i < |pal| ==> pal[i].hex.Some? && ColorContents(pal[i], ColorEvents(rs), pal[i].hex.value)
  {
    AccumulateValid(rs, key);
    var es := PaletteEntries(Accumulate(rs, key).palette);
    var pal := Compile(rs, key).visualIdentity.colorPalette;
    assert pal == SortAsc(es, EntryHex);
    SortAscProps(es, EntryHex);
    forall i | 0 <= i < |pal| ensures pal[i].hex.Some? && ColorContents(pal[i], ColorEvents(rs), pal[i].hex.value) {
      assert pal[i] in multiset(es);
      PaletteEntryIn(rs, key, pal[i]);
    }
  }

  /** Any entry the palette loop of `_finalize_compiled` produces. */
  lemma PaletteEntryIn<K>(rs: seq<VisionRecord>, key: (string, string) -> K, x: PaletteEntry)
    requires PaletteValid(Accumulate(rs, key).palette) && x in PaletteEntries(Accumulate(rs, key).palette)
    ensures x.hex.Some? && ColorContents(x, ColorEvents(rs), x.hex.value)
  {
    var p := Accumulate(rs, key).palette;
    var es := PaletteEntries(p);
    var j :| 0 <= j < |es| && es[j] == x;
    PaletteEntryContents(rs, key, j);
  }

  // ---------------------------------------------------------------------
  // The typography list
  // ---------------------------------------------------------------------

  /** The typography loop files an item when its stripped family is not blank. */
  predicate NamedType(t: VisionType) {
    Strip(t.family) != ""
  }

  function Styles(e: TypeAcc): seq<string> { e.styles }
  function TypeUsages(e: TypeAcc): seq<string> { e.usages }
  function SizeRanges(e: TypeAcc): seq<string> { e.sizeRanges }
  function Tracking(e: TypeAcc): seq<string> { e.tracking }
  function TypeNotes(e: TypeAcc): seq<string> { e.notes }
  function TypeImages(e: TypeAcc): seq<string> { e.sourceImages }

  function StyleValue(e: (VisionType, Option<string>)): string { StyleOf(e.0.style) }
  function TypeUsageOf(e: (VisionType, Option<string>)): string { Strip(e.0.usage) }
  function SizeRangeOf(e: (VisionType, Option<string>)): string { Strip(e.0.sizeRange) }
  function TrackingOf(e: (VisionType, Option<string>)): string { Strip(e.0.tracking) }
  function TypeNoteOf(e: (VisionType, Option<string>)): string { Strip(e.0.notes) }

  /** Merging a typography item adds its non-empty value to the set, and a
      new entry starts with the set empty. */
  ghost predicate TypeFieldAdds(field: TypeAcc -> seq<string>, value: ((VisionType, Option<string>)) -> string) {
    && (forall f :: field(TypeAcc(f, [], [], [], [], [], [])) == [])
    && forall acc, t, image, y :: y in field(MergeType(acc, t, image)) <==>
         y in field(acc) || (y != "" && y == value((t, image)))
  }

  lemma TypeFieldsAdd()
    ensures TypeFieldAdds(Styles, StyleValue) && TypeFieldAdds(TypeUsages, TypeUsageOf)
    ensures TypeFieldAdds(SizeRanges, SizeRangeOf) && TypeFieldAdds(Tracking, TrackingOf)
    ensures TypeFieldAdds(TypeNotes, TypeNoteOf) && TypeFieldAdds(TypeImages, ImageOf)
  {
  }

  lemma AddTypeColumn<K(!new)>(m: OrderedMap<K, TypeAcc>, es: seq<(VisionType, Option<string>)>, t: VisionType,
                               image: Option<string>, key: (string, string) -> K,
                               field: TypeAcc -> seq<string>, value: ((VisionType, Option<string>)) -> string)
    requires m.Valid() && TypeFieldAdds(field, value)
    requires Column(m, es, NamedType, KeyFn(key), field, value)
    ensures Column(AddType(m, t, image, key), es + [(t, image)], NamedType, KeyFn(key), field, value)
  {
    var m' := AddType(m, t, image, key);
    assert KeyFn(key)(t) == TypeKey(t, key);
    forall k, y ensures y in FieldAt(m', k, field) <==>
      y in FieldAt(m, k, field) || (NamedType(t) && k == KeyFn(key)(t) && y != "" && y == value((t, image)))
    {
      if NamedType(t) && k == TypeKey(t, key) {
        var acc := if k in m.entries then m.entries[k] else TypeAcc(Strip(t.family), [], [], [], [], [], []);
        assert m'.entries[k] == MergeType(acc, t, image);
        assert FieldAt(m, k, field) == field(acc);
      }
    }
    ColumnSnoc(m, m', es, (t, image), NamedType, KeyFn(key), field, value);
  }

  lemma {:induction false} AddTypesColumn<K(!new)>(m: OrderedMap<K, TypeAcc>, es: seq<(VisionType, Option<string>)>,
                                                   ts: seq<VisionType>, image: Option<string>, key: (string, string) -> K,
                                                   field: TypeAcc -> seq<string>, value: ((VisionType, Option<string>)) -> string)
    requires m.Valid() && TypeFieldAdds(field, value)
    requires Column(m, es, NamedType, KeyFn(key), field, value)
    ensures Column(AddTypes(m, ts, image, key), es + Tagged(ts, image), NamedType, KeyFn(key), field, value)
  {
    if ts == [] {
      assert es + Tagged(ts, image) == es;
    } else {
      var front := ts[..|ts| - 1];
      AddTypesColumn(m, es, front, image, key, field, value);
      AddTypeColumn(AddTypes(m, front, image, key), es + Tagged(front, image), ts[|ts| - 1], image, key, field, value);
      AppendAssoc(es, Tagged(front, image), [(ts[|ts| - 1], image)]);
    }
  }

  /** After the record loop, each typography set holds under every key exactly
      the non-empty values of the items filed under it. */
  lemma {:induction false} TypographyColumn<K(!new)>(rs: seq<VisionRecord>, key: (string, string) -> K,
                                                     field: TypeAcc -> seq<string>, value: ((VisionType, Option<string>)) -> string)
    requires TypeFieldAdds(field, value)
    ensures Column(Accumulate(rs, key).typography, TypeEvents(rs), NamedType, KeyFn(key), field, value)
  {
    if rs == [] {
      assert forall k :: FieldAt(Accumulate(rs, key).typography, k, field) == [];
    } else {
      var front := rs[..|rs| - 1];
      var r := rs[|rs| - 1];
      TypographyColumn(front, key, field, value);
      AddTypesColumn(Accumulate(front, key).typography, TypeEvents(front), TypesOf(r), r.image, key, field, value);
    }
  }

  /** The finalized styles of the entry for `k`: the named styles of its items,
      sorted, or `["unspecified"]` when every item left its style blank or
      spelled it `"unspecified"`. */
  ghost predicate StylesUnder<K>(out: seq<string>, es: seq<(VisionType, Option<string>)>, f: VisionType -> K, k: K) {
    && StrictlyAscending(out)
    && (forall x :: x != Unspecified ==> (x in out <==> Offered(es, NamedType, f, StyleValue, k, x)))
    && (Unspecified in out <==>
          Offered(es, NamedType, f, StyleValue, k, Unspecified) &&
          forall y :: Offered(es, NamedType, f, StyleValue, k, y) ==> y == Unspecified)
    && (Unspecified in out ==> out == [Unspecified])
  }

  /** The contents of the finalized typography entry for key `k`. */
  ghost predicate TypeContents<K>(e: TypographyEntry, es: seq<(VisionType, Option<string>)>, f: VisionType -> K, k: K) {
    && StylesUnder(e.styles, es, f, k)
    && FiledUnder(e.usage, es, NamedType, f, TypeUsageOf, k)
    && FiledUnder(e.sizeRanges, es, NamedType, f, SizeRangeOf, k)
    && FiledUnder(e.tracking, es, NamedType, f, TrackingOf, k)
    && FiledUnder(e.notes, es, NamedType, f, TypeNoteOf, k)
    && FiledUnder(e.sourceImages, es, NamedType, f, ImageOf, k)
  }

  /** A style is never offered blank: a blank one becomes `"unspecified"`. */
  lemma StyleOfferedClean<K>(es: seq<(VisionType, Option<string>)>, f: VisionType -> K, k: K, y: string)
    requires Offered(es, NamedType, f, StyleValue, k, y)
    ensures y != ""
  {
    var i :| 0 <= i < |es| && NamedType(es[i].0) && f(es[i].0) == k && StyleValue(es[i]) == y;
  }

  /** `FinalStyles` applied to the styles of the entry under `k`. */
  lemma FinalStylesColumn<K(!new)>(m: OrderedMap<K, TypeAcc>, es: seq<(VisionType, Option<string>)>, f: VisionType -> K, k: K)
    requires Column(m, es, NamedType, f, Styles, StyleValue) && k in m.entries && NoDup(m.entries[k].styles)
    ensures StylesUnder(FinalStyles(m.entries[k].styles), es, f, k)
  {
    var styles := m.entries[k].styles;
    forall y ensures y in styles <==> Offered(es, NamedType, f, StyleValue, k, y) {
      assert y in FieldAt(m, k, Styles) <==> y != "" && Offered(es, NamedType, f, StyleValue, k, y);
      if Offered(es, NamedType, f, StyleValue, k, y) {
        StyleOfferedClean(es, f, k, y);
      }
    }
  }

  /** The finalized entry of every key of the accumulated table. */
  lemma TypeEntryContents<K(!new)>(rs: seq<VisionRecord>, key: (string, string) -> K, j: nat)
    requires TableValid(Accumulate(rs, key).typography) && j < |Accumulate(rs, key).typography.keys|
    ensures var m := Accumulate(rs, key).typography;
      TypeContents(TypeEntries(m)[j], TypeEvents(rs), KeyFn(key), m.keys[j])
  {
    var m := Accumulate(rs, key).typography;
    var es := TypeEvents(rs);
    var k := m.keys[j];
    var f := KeyFn(key);
    assert k in m.entries;
    assert TypeEntries(m)[j] == FinalizeType(m.entries[k]);
    TypeFieldsAdd();
    TypographyColumn(rs, key, Styles, StyleValue);
    TypographyColumn(rs, key, TypeUsages, TypeUsageOf);
    TypographyColumn(rs, key, SizeRanges, SizeRangeOf);
    TypographyColumn(rs, key, Tracking, TrackingOf);
    TypographyColumn(rs, key, TypeNotes, TypeNoteOf);
    TypographyColumn(rs, key, TypeImages, ImageOf);
    FinalStylesColumn(m, es, f, k);
    SortedColumn(m, es, NamedType, f, TypeUsages, TypeUsageOf, k);
    SortedColumn(m, es, NamedType, f, SizeRanges, SizeRangeOf, k);
    SortedColumn(m, es, NamedType, f, Tracking, TrackingOf, k);
    SortedColumn(m, es, NamedType, f, TypeNotes, TypeNoteOf, k);
    SortedColumn(m, es, NamedType, f, TypeImages, ImageOf, k);
  }

  /** The compiled typography list is a reordering of one finalized entry per
      distinct key of the filed items, in first-seen key order, and each entry
      holds the styles, usages, size ranges, tracking, notes and image paths
      of the items filed under its key. */
  lemma CompileTypographyContents<K(!new)>(rs: seq<VisionRecord>, key: (string, string) -> K)
    ensures TableValid(Accumulate(rs, key).typography)
    ensures var m := Accumulate(rs, key).typography;
      && multiset(Compile(rs, key).visualIdentity.typography) == multiset(TypeEntries(m))
      && m.keys == Dedup(KeysOf(NamedTypes(FlatMap(rs, TypesOf)), KeyFn(key)))
      && forall j :: 0 <= j < |m.keys| ==> TypeContents(TypeEntries(m)[j], TypeEvents(rs), KeyFn(key), m.keys[j])
  {
    AccumulateValid(rs, key);
    var m := Accumulate(rs, key).typography;
    AccumulateTypeTable(rs, key);
    SortAscProps(TypeEntries(m), FamilyKey);
    forall j | 0 <= j < |m.keys| ensures TypeContents(TypeEntries(m)[j], TypeEvents(rs), KeyFn(key), m.keys[j]) {
      TypeEntryContents(rs, key, j);
    }
  }
}
