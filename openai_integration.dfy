// design_data_analyzer/openai_integration.py: `aggregate_guidelines`, which
// keys its typography table by the string `family::style` and returns the
// records it read in a normalised form.

module OpenAiIntegration {
  import opened Collections
  import opened AsciiStrings
  import opened DesignSpec
  import opened Compilation
  import opened CompiledProps
  import opened Text
  import Analyzer

  /** `key = f"{family.lower()}::{style.lower()}"` */
  function ColonKey(family: string, style: string): string {
    family + "::" + style
  }

  /** `{"image": image_path, "guidelines": data}`: the guidelines with the
      `or {}` default applied. */
  function Formatted(r: VisionRecord): VisionRecord {
    VisionRecord(r.image, Some(Data(r)))
  }

  /** The formatted record has the same image and the same guidelines, and
      always has guidelines. */
  lemma FormattedKeeps(r: VisionRecord)
    ensures Formatted(r).image == r.image && Formatted(r).guidelines.Some? && Data(Formatted(r)) == Data(r)
  {
  }

  /** The record loop: fold each record into the accumulator and append its
      formatted form to `formatted_per_image`. */
  method AccumulateAndFormat(perImage: seq<VisionRecord>) returns (acc: Acc<string>, formatted: seq<VisionRecord>)
    ensures acc == Accumulate(perImage, ColonKey)
    ensures formatted == FormattedAll(perImage)
  {
    acc := EmptyAcc();
    formatted := [];
    var i := 0;
    while i < |perImage|
      invariant i <= |perImage|
      invariant acc == Accumulate(perImage[..i], ColonKey)
      invariant formatted == FormattedAll(perImage[..i])
    {
      assert perImage[..i + 1][..i] == perImage[..i];
      FormattedAllSnoc(perImage, i);
      acc := AddRecordStep(acc, perImage[i], ColonKey);
      formatted := formatted + [Formatted(perImage[i])];
      i := i + 1;
    }
    assert perImage[..i] == perImage;
  }

  /** `aggregate_guidelines(per_image)` */
  method AggregateGuidelines(perImage: seq<VisionRecord>) returns (r: Aggregate)
    ensures r.imagesAnalyzed == |perImage|
    ensures r.perImage == FormattedAll(perImage)
    ensures r.compiled == Compile(perImage, ColonKey)
  {
    var acc, formatted := AccumulateAndFormat(perImage);
    AccumulateValid(perImage, ColonKey);
    var compiled := FinalizeCompiled(acc);
    r := Aggregate(|perImage|, compiled, formatted);
  }

  /** A record and its formatted form contribute the same to every table. */
  lemma FormattedAddsSame<K>(acc: Acc<K>, r: VisionRecord, key: (string, string) -> K)
    requires acc.palette.Valid() && acc.typography.Valid()
    ensures AddRecord(acc, Formatted(r), key) == AddRecord(acc, r, key)
  {
  }

  function FormattedAll(rs: seq<VisionRecord>): (fs: seq<VisionRecord>)
    ensures |fs| == |rs| && forall i :: 0 <= i < |rs| ==> fs[i] == Formatted(rs[i])
  {
    seq(|rs|, i requires 0 <= i < |rs| => Formatted(rs[i]))
  }

  lemma FormattedAllSnoc(rs: seq<VisionRecord>, i: nat)
    requires i < |rs|
    ensures FormattedAll(rs[..i + 1]) == FormattedAll(rs[..i]) + [Formatted(rs[i])]
  {
  }

  /** Aggregating the returned `per_image` again gives the same compiled
      guidelines. */
  lemma {:induction false} FormattedAccumulatesSame<K>(rs: seq<VisionRecord>, key: (string, string) -> K)
    ensures Accumulate(FormattedAll(rs), key) == Accumulate(rs, key)
  {
    if rs != [] {
      var front := rs[..|rs| - 1];
      assert FormattedAll(rs)[..|rs| - 1] == FormattedAll(front);
      FormattedAccumulatesSame(front, key);
      FormattedAddsSame(Accumulate(front, key), rs[|rs| - 1], key);
    }
  }

  lemma ReaggregateIsStable<K>(rs: seq<VisionRecord>, key: (string, string) -> K)
    ensures Compile(FormattedAll(rs), key) == Compile(rs, key)
  {
    FormattedAccumulatesSame(rs, key);
  }

  // ---------------------------------------------------------------------
  // The `::` key is ambiguous
  // ---------------------------------------------------------------------

  const FamilyWithColons := VisionType("a::b", "c", "", "", "", "")
  const StyleWithColons := VisionType("a", "b::c", "", "", "", "")

  /** Family `a::b` with style `c` and family `a` with style `b::c` get the
      same key, though they differ in family and in style. */
  lemma ColonKeyMerges()
    ensures TypeKey(FamilyWithColons, ColonKey) == TypeKey(StyleWithColons, ColonKey)
    ensures Lower(Strip(FamilyWithColons.family)) != Lower(Strip(StyleWithColons.family))
  {
    FamilyColonKey();
    StyleColonKey();
    ColonFamiliesDiffer();
  }

  lemma ColonFamiliesDiffer()
    ensures Lower(Strip(FamilyWithColons.family)) == "a::b"
    ensures Lower(Strip(StyleWithColons.family)) == "a"
  {
    Plain("a::b");
    Plain("a");
  }

  lemma FamilyColonKey()
    ensures TypeKey(FamilyWithColons, ColonKey) == "a::b::c"
  {
    Plain("a::b");
    Plain("c");
    assert StyleOf("c") == "c";
    assert "a::b" + "::" + "c" == "a::b::c";
  }

  lemma StyleColonKey()
    ensures TypeKey(StyleWithColons, ColonKey) == "a::b::c"
  {
    Plain("a");
    Plain("b::c");
    assert StyleOf("b::c") == "b::c";
    assert "a" + "::" + "b::c" == "a::b::c";
  }

  /** One record naming both typefaces. */
  const BothTypefaces := [VisionRecord(None, Some(VisionGuidelines(
    VisionIdentity("", [], [], ""), VisionVisual([], [FamilyWithColons, StyleWithColons], [], EmptyImagery),
    EmptyLayout, EmptyVoice, [], "")))]

  lemma BothTypefacesNamed()
    ensures NamedTypes(FlatMap(BothTypefaces, TypesOf)) == [FamilyWithColons, StyleWithColons]
  {
    FlatMapSingle(BothTypefaces[0], TypesOf);
    NamedColonTypes();
  }

  /** Both typefaces have a non-blank family, so both are kept. */
  lemma NamedColonTypes()
    ensures NamedTypes([FamilyWithColons, StyleWithColons]) == [FamilyWithColons, StyleWithColons]
  {
    Plain("a::b");
    Plain("a");
    assert Named(FamilyWithColons) == [FamilyWithColons];
    assert Named(StyleWithColons) == [StyleWithColons];
    var ts := [FamilyWithColons, StyleWithColons];
    assert ts == [FamilyWithColons] + [StyleWithColons];
    FlatMapSnoc([FamilyWithColons], StyleWithColons, Named);
    FlatMapSingle(FamilyWithColons, Named);
  }

  lemma KeysOfPair<K>(t: VisionType, u: VisionType, f: VisionType -> K)
    ensures KeysOf([t, u], f) == [f(t), f(u)]
  {
  }

  /** Two keys make one entry when they are equal and two otherwise. */
  lemma DedupPair<K>(k1: K, k2: K)
    ensures |Dedup([k1, k2])| == if k1 == k2 then 1 else 2
  {
    assert Dedup([k1]) == [k1] by { DedupSnoc([], k1); assert [] + [k1] == [k1]; }
    DedupSnoc([k1], k2);
    assert [k1] + [k2] == [k1, k2];
  }

  /** With the `::` key, per-image records whose named typefaces are exactly
      these two compile to a single typography entry (`BothTypefaces` is
      such a list). */
  lemma ColonKeyMergesEntries(rs: seq<VisionRecord>)
    requires NamedTypes(FlatMap(rs, TypesOf)) == [FamilyWithColons, StyleWithColons]
    ensures |Compile(rs, ColonKey).visualIdentity.typography| == 1
  {
    CompileTypography(rs, ColonKey);
    ColonKeyMerges();
    KeysOfPair(FamilyWithColons, StyleWithColons, KeyFn(ColonKey));
    DedupPair(TypeKey(FamilyWithColons, ColonKey), TypeKey(StyleWithColons, ColonKey));
  }

  /** With the pair key of analyzer.py the same records keep two entries. */
  lemma TupleKeyKeepsEntries(rs: seq<VisionRecord>)
    requires NamedTypes(FlatMap(rs, TypesOf)) == [FamilyWithColons, StyleWithColons]
    ensures |Compile(rs, Analyzer.TupleKey).visualIdentity.typography| == 2
  {
    CompileTypography(rs, Analyzer.TupleKey);
    ColonKeyMerges();
    Analyzer.TupleKeySeparates(FamilyWithColons, StyleWithColons);
    KeysOfPair(FamilyWithColons, StyleWithColons, KeyFn(Analyzer.TupleKey));
    DedupPair(TypeKey(FamilyWithColons, Analyzer.TupleKey), TypeKey(StyleWithColons, Analyzer.TupleKey));
  }

  /** Strings made of lower-case letters and colons survive `strip()` and
      `lower()`. */
  lemma Plain(s: string)
    requires s != [] && forall i :: 0 <= i < |s| ==> s[i] == ':' || 'a' <= s[i] <= 'z'
    ensures Strip(s) == s && Lower(s) == s
  {
    StrippedIsFixed(s);
    LowerFixed(s);
  }

  /** Without `:` in the families, the key determines family and style. */
  lemma ColonKeyInjectiveWithoutColons(a: string, b: string, c: string, d: string)
    requires ':' !in a && ':' !in c
    ensures ColonKey(a, b) == ColonKey(c, d) <==> a == c && b == d
  {
    if ColonKey(a, b) == ColonKey(c, d) {
      var s := ColonKey(a, b);
      assert s[|a|] == ':' && s[|c|] == ':';
      assert |a| == |c|;
      assert a == s[..|a|] == c;
      assert b == s[|a| + 2..] == d;
    }
  }
}
