// design_data_analyzer/analyzer.py: `aggregate_guidelines`, which keys its
// typography table by the pair of the lower-cased family and style.

module Analyzer {
  import opened Collections
  import opened AsciiStrings
  import opened Text
  import opened DesignSpec
  import opened Compilation
  import opened CompiledProps

  /** `key = (family.lower(), style.lower())` */
  function TupleKey(family: string, style: string): (string, string) {
    (family, style)
  }

  /** `(typo.get("style") or "unspecified").strip() or "unspecified"` */
  function AnalyzerStyle(style: string): string {
    var s := Strip(if style == "" then Unspecified else style);
    if s == "" then Unspecified else s
  }

  /** The default placed before `strip()` changes nothing: the style is the
      one the shared aggregation computes. */
  lemma AnalyzerStyleIsStyleOf(style: string)
    ensures AnalyzerStyle(style) == StyleOf(style)
  {
    if style == "" {
      assert Unspecified[0] == 'u' && Unspecified[|Unspecified| - 1] == 'd';
      StrippedIsFixed(Unspecified);
    }
  }

  /** Two typography items share an entry exactly when their lower-cased
      stripped families agree and their lower-cased styles agree. */
  lemma TupleKeySeparates(t: VisionType, u: VisionType)
    ensures TypeKey(t, TupleKey) == TypeKey(u, TupleKey) <==>
      Lower(Strip(t.family)) == Lower(Strip(u.family)) && Lower(StyleOf(t.style)) == Lower(StyleOf(u.style))
  {
  }

  /** `aggregate_guidelines(per_image)` */
  method AggregateGuidelines(perImage: seq<VisionRecord>) returns (r: Aggregate)
    ensures r.imagesAnalyzed == |perImage|
    ensures r.perImage == perImage
    ensures r.compiled == Compile(perImage, TupleKey)
  {
    var acc := AccumulateRecords(perImage, TupleKey);
    AccumulateValid(perImage, TupleKey);
    var compiled := FinalizeCompiled(acc);
    r := Aggregate(|perImage|, compiled, perImage);
  }
}
