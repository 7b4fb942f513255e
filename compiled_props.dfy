// What `aggregate_guidelines` promises about the `compiled` dictionary it
// returns, for any key builder: every finalized set is sorted, duplicate-free
// and holds exactly the cleaned values the records offered to it; the palette
// has one entry per distinct hex, sorted by hex; the typography list has one
// entry per distinct key, sorted by lower-cased family; the confidence notes
// are one per qualifying record, in record order.

module CompiledProps {
  import opened Collections
  import opened AsciiStrings
  import opened Sorting
  import opened DesignSpec
  import opened Compilation

  // ---------------------------------------------------------------------
  // Sets
  // ---------------------------------------------------------------------

  /** A finalized set: strictly ascending, and holding exactly the stripped,
      non-empty items offered to it. */
  ghost predicate CollectedFrom(out: seq<string>, offered: seq<string>) {
    StrictlyAscending(out) && AllClean(out)
    && forall y :: y in out <==> y != "" && exists i :: 0 <= i < |offered| && Strip(offered[i]) == y
  }

  /** `sorted` of a set built by `_merge_sets` from nothing. */
  lemma SortedMerge(offered: seq<string>)
    ensures CollectedFrom(SortStrings(MergeAll([], offered)), offered)
  {
    var merged := MergeAll([], offered);
    forall y ensures y in merged <==> y != "" && exists i :: 0 <= i < |offered| && Strip(offered[i]) == y {
      MergeAllFromEmpty(offered, y);
    }
    var out := SortStrings(merged);
    forall i | 0 <= i < |out| ensures Clean(out[i]) {
      assert out[i] in merged;
    }
  }

  /** A set field of the accumulator that each record merges its own offered
      items into holds, after the record loop, the merge of all of them. */
  lemma {:induction false} SetColumn<K>(rs: seq<VisionRecord>, key: (string, string) -> K,
                                         offered: VisionRecord -> seq<string>, field: Acc<K> -> seq<string>)
    requires field(EmptyAcc()) == []
    requires forall acc: Acc<K>, r: VisionRecord :: acc.palette.Valid() && acc.typography.Valid() ==>
               field(AddRecord(acc, r, key)) == MergeAll(field(acc), offered(r))
    ensures field(Accumulate(rs, key)) == MergeAll([], FlatMap(rs, offered))
  {
    if rs != [] {
      var front := rs[..|rs| - 1];
      SetColumn(front, key, offered, field);
      MergeAllAppend([], FlatMap(front, offered), offered(rs[|rs| - 1]));
    }
  }

  // The items one record offers to each set, and the accumulator field that
  // collects them.

  function BrandNameOffered(r: VisionRecord): seq<string> { [Data(r).brandIdentity.brandName] }
  function DesignContextOffered(r: VisionRecord): seq<string> { Data(r).brandIdentity.designContext }
  function CoreAttributesOffered(r: VisionRecord): seq<string> { Data(r).brandIdentity.coreAttributes }
  function TaglineOffered(r: VisionRecord): seq<string> { [Data(r).brandIdentity.tagline] }

  function BrandNamesField<K>(a: Acc<K>): seq<string> { a.brand.brandNames }
  function DesignContextField<K>(a: Acc<K>): seq<string> { a.brand.designContext }
  function CoreAttributesField<K>(a: Acc<K>): seq<string> { a.brand.coreAttributes }
  function TaglinesField<K>(a: Acc<K>): seq<string> { a.brand.taglines }

  function LogoOffered(r: VisionRecord): seq<string> { Data(r).visualIdentity.logoUsage }
  function ProductionOffered(r: VisionRecord): seq<string> { Data(r).productionNotes }

  function LogoField<K>(a: Acc<K>): seq<string> { a.logoUsage }
  function ProductionField<K>(a: Acc<K>): seq<string> { a.productionNotes }

  function PhotographyOffered(r: VisionRecord): seq<string> { Data(r).visualIdentity.imageryStyle.photography }
  function IllustrationOffered(r: VisionRecord): seq<string> { Data(r).visualIdentity.imageryStyle.illustration }
  function IconographyOffered(r: VisionRecord): seq<string> { Data(r).visualIdentity.imageryStyle.iconography }
  function TexturesOffered(r: VisionRecord): seq<string> { Data(r).visualIdentity.imageryStyle.texturesAndPatterns }

  function PhotographyField<K>(a: Acc<K>): seq<string> { a.imagery.photography }
  function IllustrationField<K>(a: Acc<K>): seq<string> { a.imagery.illustration }
  function IconographyField<K>(a: Acc<K>): seq<string> { a.imagery.iconography }
  function TexturesField<K>(a: Acc<K>): seq<string> { a.imagery.texturesAndPatterns }

  function GridOffered(r: VisionRecord): seq<string> { Data(r).layoutAndComponents.gridAndSpacing }
  function ComponentsOffered(r: VisionRecord): seq<string> { Data(r).layoutAndComponents.keyComponents }
  function CallToActionOffered(r: VisionRecord): seq<string> { Data(r).layoutAndComponents.callToActionTreatment }
  function InteractionOffered(r: VisionRecord): seq<string> { Data(r).layoutAndComponents.interactionNotes }

  function GridField<K>(a: Acc<K>): seq<string> { a.layout.gridAndSpacing }
  function ComponentsField<K>(a: Acc<K>): seq<string> { a.layout.keyComponents }
  function CallToActionField<K>(a: Acc<K>): seq<string> { a.layout.callToActionTreatment }
  function InteractionField<K>(a: Acc<K>): seq<string> { a.layout.interactionNotes }

  function ToneOffered(r: VisionRecord): seq<string> { Data(r).voiceAndCopy.toneDescriptors }
  function PillarsOffered(r: VisionRecord): seq<string> { Data(r).voiceAndCopy.messagingPillars }
  function DosOffered(r: VisionRecord): seq<string> { Data(r).voiceAndCopy.dos }
  function DontsOffered(r: VisionRecord): seq<string> { Data(r).voiceAndCopy.donts }

  function ToneField<K>(a: Acc<K>): seq<string> { a.voice.toneDescriptors }
  function PillarsField<K>(a: Acc<K>): seq<string> { a.voice.messagingPillars }
  function DosField<K>(a: Acc<K>): seq<string> { a.voice.dos }
  function DontsField<K>(a: Acc<K>): seq<string> { a.voice.donts }

  /** Brand names and taglines are each the single stripped value a record
      offers; the design context and core attributes are merged lists. */
  lemma CompileBrand<K>(rs: seq<VisionRecord>, key: (string, string) -> K)
    ensures var b := Compile(rs, key).brandIdentity;
      && CollectedFrom(b.brandNames, FlatMap(rs, BrandNameOffered))
      && CollectedFrom(b.designContext, FlatMap(rs, DesignContextOffered))
      && CollectedFrom(b.coreAttributes, FlatMap(rs, CoreAttributesOffered))
      && CollectedFrom(b.taglines, FlatMap(rs, TaglineOffered))
  {
    forall acc: Acc<K>, r: VisionRecord | acc.palette.Valid() && acc.typography.Valid()
      ensures BrandNamesField(AddRecord(acc, r, key)) == MergeAll(BrandNamesField(acc), BrandNameOffered(r))
      ensures TaglinesField(AddRecord(acc, r, key)) == MergeAll(TaglinesField(acc), TaglineOffered(r))
    {
      MaybeAddIsMerge(acc.brand.brandNames, Data(r).brandIdentity.brandName);
      MaybeAddIsMerge(acc.brand.taglines, Data(r).brandIdentity.tagline);
    }
    SetColumn(rs, key, BrandNameOffered, BrandNamesField);
    SetColumn(rs, key, DesignContextOffered, DesignContextField);
    SetColumn(rs, key, CoreAttributesOffered, CoreAttributesField);
    SetColumn(rs, key, TaglineOffered, TaglinesField);
    SortedMerge(FlatMap(rs, BrandNameOffered));
    SortedMerge(FlatMap(rs, DesignContextOffered));
    SortedMerge(FlatMap(rs, CoreAttributesOffered));
    SortedMerge(FlatMap(rs, TaglineOffered));
  }

  lemma CompileLogoAndProduction<K>(rs: seq<VisionRecord>, key: (string, string) -> K)
    ensures var c := Compile(rs, key);
      && CollectedFrom(c.visualIdentity.logoUsage, FlatMap(rs, LogoOffered))
      && CollectedFrom(c.productionNotes, FlatMap(rs, ProductionOffered))
  {
    SetColumn(rs, key, LogoOffered, LogoField);
    SetColumn(rs, key, ProductionOffered, ProductionField);
    SortedMerge(FlatMap(rs, LogoOffered));
    SortedMerge(FlatMap(rs, ProductionOffered));
  }

  lemma CompileImagery<K>(rs: seq<VisionRecord>, key: (string, string) -> K)
    ensures var s := Compile(rs, key).visualIdentity.imageryStyle;
      && CollectedFrom(s.photography, FlatMap(rs, PhotographyOffered))
      && CollectedFrom(s.illustration, FlatMap(rs, IllustrationOffered))
      && CollectedFrom(s.iconography, FlatMap(rs, IconographyOffered))
      && CollectedFrom(s.texturesAndPatterns, FlatMap(rs, TexturesOffered))
  {
    SetColumn(rs, key, PhotographyOffered, PhotographyField);
    SetColumn(rs, key, IllustrationOffered, IllustrationField);
    SetColumn(rs, key, IconographyOffered, IconographyField);
    SetColumn(rs, key, TexturesOffered, TexturesField);
    SortedMerge(FlatMap(rs, PhotographyOffered));
    SortedMerge(FlatMap(rs, IllustrationOffered));
    SortedMerge(FlatMap(rs, IconographyOffered));
    SortedMerge(FlatMap(rs, TexturesOffered));
  }

  lemma CompileLayout<K>(rs: seq<VisionRecord>, key: (string, string) -> K)
    ensures var s := Compile(rs, key).layoutAndComponents;
      && CollectedFrom(s.gridAndSpacing, FlatMap(rs, GridOffered))
      && CollectedFrom(s.keyComponents, FlatMap(rs, ComponentsOffered))
      && CollectedFrom(s.callToActionTreatment, FlatMap(rs, CallToActionOffered))
      && CollectedFrom(s.interactionNotes, FlatMap(rs, InteractionOffered))
  {
    SetColumn(rs, key, GridOffered, GridField);
    SetColumn(rs, key, ComponentsOffered, ComponentsField);
    SetColumn(rs, key, CallToActionOffered, CallToActionField);
    SetColumn(rs, key, InteractionOffered, InteractionField);
    SortedMerge(FlatMap(rs, GridOffered));
    SortedMerge(FlatMap(rs, ComponentsOffered));
    SortedMerge(FlatMap(rs, CallToActionOffered));
    SortedMerge(FlatMap(rs, InteractionOffered));
  }

  lemma CompileVoice<K>(rs: seq<VisionRecord>, key: (string, string) -> K)
    ensures var s := Compile(rs, key).voiceAndCopy;
      && CollectedFrom(s.toneDescriptors, FlatMap(rs, ToneOffered))
      && CollectedFrom(s.messagingPillars, FlatMap(rs, PillarsOffered))
      && CollectedFrom(s.dos, FlatMap(rs, DosOffered))
      && CollectedFrom(s.donts, FlatMap(rs, DontsOffered))
  {
    SetColumn(rs, key, ToneOffered, ToneField);
    SetColumn(rs, key, PillarsOffered, PillarsField);
    SetColumn(rs, key, DosOffered, DosField);
    SetColumn(rs, key, DontsOffered, DontsField);
    SortedMerge(FlatMap(rs, ToneOffered));
    SortedMerge(FlatMap(rs, PillarsOffered));
    SortedMerge(FlatMap(rs, DosOffered));
    SortedMerge(FlatMap(rs, DontsOffered));
  }

  // ---------------------------------------------------------------------
  // The palette
  // ---------------------------------------------------------------------

  /** The palette loop files exactly the non-blank normalised hexes. */
  lemma HexesMembers(cs: seq<VisionColor>, h: string)
    ensures h in Hexes(cs) <==> h != "" && exists i :: 0 <= i < |cs| && HexOf(cs[i]) == h
  {
    if h != "" && exists i :: 0 <= i < |cs| && HexOf(cs[i]) == h {
      var i :| 0 <= i < |cs| && HexOf(cs[i]) == h;
      FlatMapContains(cs, HexItem, i, h);
    }
    if h in Hexes(cs) {
      FlatMapMember(cs, HexItem, h);
    }
  }

  /** Each finalized entry carries the hex it was filed under. */
  lemma PaletteEntriesHexes(p: OrderedMap<string, ColorAcc>)
    requires PaletteValid(p)
    ensures DistinctUnder(PaletteEntries(p), EntryHex)
    ensures forall i :: 0 <= i < |p.keys| ==> PaletteEntries(p)[i].hex == Some(p.keys[i])
  {
    var es := PaletteEntries(p);
    forall i | 0 <= i < |p.keys| ensures es[i].hex == Some(p.keys[i]) {
      var k := p.keys[i];
      assert k in p.entries;
      assert es[i] == FinalizeColor(p.entries[k]);
    }
    forall i, j | 0 <= i < j < |es| ensures EntryHex(es[i]) != EntryHex(es[j]) {
      assert EntryHex(es[i]) == p.keys[i] && EntryHex(es[j]) == p.keys[j];
    }
  }

  /** A finalized palette for colours whose filed hexes are `hexes`: one
      entry per distinct hex, strictly ascending by hex. */
  ghost predicate PaletteShape(pal: seq<PaletteEntry>, hexes: seq<string>) {
    && StrictlyAsc(pal, EntryHex)
    && |pal| == |Dedup(hexes)|
    && (forall i :: 0 <= i < |pal| ==> pal[i].hex.Some? && pal[i].hex.value in hexes)
    && (forall h :: h in hexes ==> exists i :: 0 <= i < |pal| && pal[i].hex == Some(h))
  }

  /** Sorting entries that carry the distinct hexes `Dedup(hexes)`, one each. */
  lemma SortedByHex(es: seq<PaletteEntry>, hexes: seq<string>)
    requires |es| == |Dedup(hexes)| && DistinctUnder(es, EntryHex)
    requires forall i :: 0 <= i < |es| ==> es[i].hex == Some(Dedup(hexes)[i])
    ensures PaletteShape(SortAsc(es, EntryHex), hexes)
  {
    SortAscStrict(es, EntryHex);
    SortAscProps(es, EntryHex);
    SortedHexesFrom(es, hexes);
    SortedHexesCover(es, hexes);
  }

  /** Every sorted entry carries one of the hexes. */
  lemma SortedHexesFrom(es: seq<PaletteEntry>, hexes: seq<string>)
    requires |es| == |Dedup(hexes)|
    requires forall i :: 0 <= i < |es| ==> es[i].hex == Some(Dedup(hexes)[i])
    ensures var pal := SortAsc(es, EntryHex);
      forall i :: 0 <= i < |pal| ==> pal[i].hex.Some? && pal[i].hex.value in hexes
  {
    var pal := SortAsc(es, EntryHex);
    DedupProps(hexes);
    SortAscProps(es, EntryHex);
    forall i | 0 <= i < |pal| ensures pal[i].hex.Some? && pal[i].hex.value in hexes {
      assert pal[i] in multiset(es);
    }
  }

  /** Every hex is carried by some sorted entry. */
  lemma SortedHexesCover(es: seq<PaletteEntry>, hexes: seq<string>)
    requires |es| == |Dedup(hexes)|
    requires forall i :: 0 <= i < |es| ==> es[i].hex == Some(Dedup(hexes)[i])
    ensures var pal := SortAsc(es, EntryHex);
      forall h :: h in hexes ==> exists i :: 0 <= i < |pal| && pal[i].hex == Some(h)
  {
    var pal := SortAsc(es, EntryHex);
    var keys := Dedup(hexes);
    DedupProps(hexes);
    SortAscProps(es, EntryHex);
    forall h | h in hexes ensures exists i :: 0 <= i < |pal| && pal[i].hex == Some(h) {
      var j :| 0 <= j < |keys| && keys[j] == h;
      assert es[j] in multiset(pal);
    }
  }

  /** The palette `_finalize_compiled` returns for the accumulated table. */
  lemma CompiledPalette<K>(rs: seq<VisionRecord>, key: (string, string) -> K)
    ensures PaletteValid(Accumulate(rs, key).palette)
    ensures Compile(rs, key).visualIdentity.colorPalette == SortAsc(PaletteEntries(Accumulate(rs, key).palette), EntryHex)
  {
    AccumulateValid(rs, key);
  }

  /** The palette holds one entry per distinct non-blank hex the records
      name, sorted by hex with no two entries sharing one. */
  lemma CompilePalette<K>(rs: seq<VisionRecord>, key: (string, string) -> K)
    ensures PaletteShape(Compile(rs, key).visualIdentity.colorPalette, Hexes(FlatMap(rs, ColorsOf)))
  {
    CompiledPalette(rs, key);
    var p := Accumulate(rs, key).palette;
    AccumulatePaletteKeys(rs, key);
    PaletteEntriesHexes(p);
    SortedByHex(PaletteEntries(p), Hexes(FlatMap(rs, ColorsOf)));
  }

  // ---------------------------------------------------------------------
  // The typography list
  // ---------------------------------------------------------------------

  /** A typography entry whose family is that of the first item with its key,
      and whose styles follow the `"unspecified"` rule. */
  ghost predicate TypeEntryShape<K>(e: TypographyEntry, named: seq<VisionType>, ks: seq<K>)
    requires |ks| == |named|
  {
    && (exists j :: 0 <= j < |named| && FirstIndex(ks, ks[j]) == j && e.family == Strip(named[j].family))
    && e.styles != [] && StrictlyAscending(e.styles)
    && (Unspecified in e.styles ==> e.styles == [Unspecified])
  }

  /** A finalized typography list for the filed items `named` with keys `ks`:
      one entry per distinct key, sorted by lower-cased family. */
  ghost predicate TypographyShape<K>(typ: seq<TypographyEntry>, named: seq<VisionType>, ks: seq<K>)
    requires |ks| == |named|
  {
    && SortedAsc(typ, FamilyKey)
    && |typ| == |Dedup(ks)|
    && forall i :: 0 <= i < |typ| ==> TypeEntryShape(typ[i], named, ks)
  }

  /** The finalized typography entries in table order. */
  lemma TypeEntriesFacts<K>(m: OrderedMap<K, TypeAcc>, named: seq<VisionType>, f: VisionType -> K)
    requires TableValid(m) && TypeTableInv(named, m, f)
    ensures |TypeEntries(m)| == |Dedup(KeysOf(named, f))|
    ensures forall i :: 0 <= i < |TypeEntries(m)| ==> TypeEntryShape(TypeEntries(m)[i], named, KeysOf(named, f))
  {
    var es := TypeEntries(m);
    var ks := KeysOf(named, f);
    forall i | 0 <= i < |es| ensures TypeEntryShape(es[i], named, ks) {
      var k := m.keys[i];
      var j := FirstIndex(ks, k);
      assert ks[j] == k;
    }
  }

  /** Sorting entries by lower-cased family keeps each one. */
  lemma SortedByFamily<K>(es: seq<TypographyEntry>, named: seq<VisionType>, ks: seq<K>)
    requires |ks| == |named| && |es| == |Dedup(ks)|
    requires forall i :: 0 <= i < |es| ==> TypeEntryShape(es[i], named, ks)
    ensures TypographyShape(SortAsc(es, FamilyKey), named, ks)
  {
    SortAscProps(es, FamilyKey);
    var typ := SortAsc(es, FamilyKey);
    forall i | 0 <= i < |typ| ensures TypeEntryShape(typ[i], named, ks) {
      assert typ[i] in multiset(es);
    }
  }

  /** The typography list `_finalize_compiled` returns for the accumulated table. */
  lemma CompiledTypography<K>(rs: seq<VisionRecord>, key: (string, string) -> K)
    ensures TableValid(Accumulate(rs, key).typography)
    ensures Compile(rs, key).visualIdentity.typography == SortAsc(TypeEntries(Accumulate(rs, key).typography), FamilyKey)
  {
    AccumulateValid(rs, key);
  }

  /** The typography list holds one entry per distinct key of the items with a
      non-blank family, sorted by lower-cased family; each keeps the family as
      the first item with its key spelled it, and its styles follow the
      `"unspecified"` rule. */
  lemma CompileTypography<K>(rs: seq<VisionRecord>, key: (string, string) -> K)
    ensures TypographyShape(Compile(rs, key).visualIdentity.typography,
                            NamedTypes(FlatMap(rs, TypesOf)), KeysOf(NamedTypes(FlatMap(rs, TypesOf)), KeyFn(key)))
  {
    CompiledTypography(rs, key);
    var m := Accumulate(rs, key).typography;
    var named := NamedTypes(FlatMap(rs, TypesOf));
    AccumulateTypeTable(rs, key);
    TypeEntriesFacts(m, named, KeyFn(key));
    SortedByFamily(TypeEntries(m), named, KeysOf(named, KeyFn(key)));
  }

  // ---------------------------------------------------------------------
  // Confidence notes
  // ---------------------------------------------------------------------

  lemma {:induction false} AccumulateNotes<K>(rs: seq<VisionRecord>, key: (string, string) -> K)
    ensures Accumulate(rs, key).confidenceNotes == FlatMap(rs, ConfidenceOf)
  {
    if rs != [] {
      AccumulateNotes(rs[..|rs| - 1], key);
    }
  }

  lemma {:induction false} NotesPerRecord(rs: seq<VisionRecord>)
    ensures |FlatMap(rs, ConfidenceOf)| <= |rs|
  {
    if rs != [] {
      NotesPerRecord(rs[..|rs| - 1]);
    }
  }

  /** The confidence notes are the records' notes in record order, at most one
      per record, each naming a truthy image and a cleaned note. */
  lemma CompileNotes<K>(rs: seq<VisionRecord>, key: (string, string) -> K)
    ensures var n := Compile(rs, key).confidenceNotes;
      && n == FlatMap(rs, ConfidenceOf)
      && |n| <= |rs|
      && forall i :: 0 <= i < |n| ==> NoteOk(n[i])
  {
    AccumulateNotes(rs, key);
    NotesPerRecord(rs);
    AccumulateValid(rs, key);
  }
}
