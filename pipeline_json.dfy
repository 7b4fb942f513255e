/** The `*_to_dict` helpers of the pipeline: plain field copies of each record
    into a JSON-shaped dictionary, with the keys in the order the helpers list
    them. Each encoder has a decoder, and decoding an encoding gives the
    record back, so no field is lost or altered. */
module PipelineJson {
  import opened Collections
  import opened Pipeline

  /** A JSON value; an object keeps its keys in insertion order. */
  datatype Json =
    | JNull
    | JString(str: string)
    | JNumber(num: real)
    | JArray(items: seq<Json>)
    | JObject(fields: seq<(string, Json)>)

  function Keys(j: Json): seq<string> {
    if j.JObject? then seq(|j.fields|, i requires 0 <= i < |j.fields| => j.fields[i].0) else []
  }

  /** `d.get(key)`: the value at the first field named `key`. */
  function Get(fields: seq<(string, Json)>, key: string): Option<Json> {
    if fields == [] then None
    else if fields[0].0 == key then Some(fields[0].1)
    else Get(fields[1..], key)
  }

  /** A key present in an object with distinct keys is found at its field. */
  lemma {:induction false} GetDistinct(fields: seq<(string, Json)>, i: nat)
    requires i < |fields|
    requires forall a, b :: 0 <= a < b < |fields| ==> fields[a].0 != fields[b].0
    ensures Get(fields, fields[i].0) == Some(fields[i].1)
  {
    if i > 0 {
      assert fields[0].0 != fields[i].0;
      GetDistinct(fields[1..], i - 1);
    }
  }

  lemma GetAll(fields: seq<(string, Json)>)
    requires forall a, b :: 0 <= a < b < |fields| ==> fields[a].0 != fields[b].0
    ensures forall i :: 0 <= i < |fields| ==> Get(fields, fields[i].0) == Some(fields[i].1)
  {
    forall i | 0 <= i < |fields| ensures Get(fields, fields[i].0) == Some(fields[i].1) {
      GetDistinct(fields, i);
    }
  }

  function GetString(j: Json, key: string): Option<string> {
    if !j.JObject? then None
    else match Get(j.fields, key)
      case Some(JString(s)) => Some(s)
      case _ => None
  }

  function GetNumber(j: Json, key: string): Option<real> {
    if !j.JObject? then None
    else match Get(j.fields, key)
      case Some(JNumber(r)) => Some(r)
      case _ => None
  }

  function EncodeArray<T>(xs: seq<T>, enc: T -> Json): (j: Json)
    ensures j.JArray? && |j.items| == |xs|
  {
    JArray(seq(|xs|, i requires 0 <= i < |xs| => enc(xs[i])))
  }

  function DecodeArray<T>(items: seq<Json>, dec: Json -> Option<T>): Option<seq<T>> {
    if items == [] then Some([])
    else match dec(items[0])
      case None => None
      case Some(x) =>
        match DecodeArray(items[1..], dec)
        case None => None
        case Some(rest) => Some([x] + rest)
  }

  /** An array decodes element by element to what was encoded. */
  lemma {:induction false} ArrayRoundTrip<T>(xs: seq<T>, enc: T -> Json, dec: Json -> Option<T>)
    requires forall x :: dec(enc(x)) == Some(x)
    ensures DecodeArray(EncodeArray(xs, enc).items, dec) == Some(xs)
  {
    if xs != [] {
      var items := EncodeArray(xs, enc).items;
      assert items[0] == enc(xs[0]);
      assert items[1..] == EncodeArray(xs[1..], enc).items;
      ArrayRoundTrip(xs[1..], enc, dec);
      assert xs == [xs[0]] + xs[1..];
    }
  }

  function StringArray(ss: seq<string>): Json { EncodeArray(ss, s => JString(s)) }

  function AsString(j: Json): Option<string> {
    if j.JString? then Some(j.str) else None
  }

  function GetStrings(j: Json, key: string): Option<seq<string>> {
    if !j.JObject? then None
    else match Get(j.fields, key)
      case Some(JArray(items)) => DecodeArray(items, AsString)
      case _ => None
  }

  lemma StringArrayRoundTrip(ss: seq<string>)
    ensures DecodeArray(StringArray(ss).items, AsString) == Some(ss)
  {
    ArrayRoundTrip(ss, s => JString(s), AsString);
  }

  // ---------------------------------------------------------------------
  // color_to_dict, typography_to_dict, layout_to_dict
  // ---------------------------------------------------------------------

  function ColorToDict(c: ColorSwatch): Json {
    JObject([("hex", JString(c.hex)), ("name", JString(c.name)),
             ("prominence", JNumber(c.prominence)), ("usage_hint", JString(c.usageHint))])
  }

  function ColorFromDict(j: Json): Option<ColorSwatch> {
    match (GetString(j, "hex"), GetString(j, "name"), GetNumber(j, "prominence"), GetString(j, "usage_hint"))
    case (Some(h), Some(n), Some(p), Some(u)) => Some(ColorSwatch(h, n, p, u))
    case _ => None
  }

  lemma ColorRoundTrip(c: ColorSwatch)
    ensures Keys(ColorToDict(c)) == ["hex", "name", "prominence", "usage_hint"]
    ensures ColorFromDict(ColorToDict(c)) == Some(c)
  {
    var f := ColorToDict(c).fields;
    GetAll(f);
    assert Get(f, "hex") == Some(f[0].1);
    assert Get(f, "name") == Some(f[1].1);
    assert Get(f, "prominence") == Some(f[2].1);
    assert Get(f, "usage_hint") == Some(f[3].1);
  }

  function TypographyToDict(t: TypographySample): Json {
    JObject([("text", JString(t.text)), ("casing", JString(t.casing)),
             ("weight", JString(t.weight)), ("classification", JString(t.classification))])
  }

  function TypographyFromDict(j: Json): Option<TypographySample> {
    match (GetString(j, "text"), GetString(j, "casing"), GetString(j, "weight"), GetString(j, "classification"))
    case (Some(x), Some(c), Some(w), Some(k)) => Some(TypographySample(x, c, w, k))
    case _ => None
  }

  lemma TypographyRoundTrip(t: TypographySample)
    ensures Keys(TypographyToDict(t)) == ["text", "casing", "weight", "classification"]
    ensures TypographyFromDict(TypographyToDict(t)) == Some(t)
  {
    GetAll(TypographyToDict(t).fields);
    assert Get(TypographyToDict(t).fields, "text") == Some(TypographyToDict(t).fields[0].1);
    assert Get(TypographyToDict(t).fields, "casing") == Some(TypographyToDict(t).fields[1].1);
    assert Get(TypographyToDict(t).fields, "weight") == Some(TypographyToDict(t).fields[2].1);
    assert Get(TypographyToDict(t).fields, "classification") == Some(TypographyToDict(t).fields[3].1);
  }

  lemma ColorsRoundTrip(cs: seq<ColorSwatch>)
    ensures DecodeArray(EncodeArray(cs, ColorToDict).items, ColorFromDict) == Some(cs)
  {
    forall c ensures ColorFromDict(ColorToDict(c)) == Some(c) { ColorRoundTrip(c); }
    ArrayRoundTrip(cs, ColorToDict, ColorFromDict);
  }

  lemma TypographiesRoundTrip(ts: seq<TypographySample>)
    ensures DecodeArray(EncodeArray(ts, TypographyToDict).items, TypographyFromDict) == Some(ts)
  {
    forall t ensures TypographyFromDict(TypographyToDict(t)) == Some(t) { TypographyRoundTrip(t); }
    ArrayRoundTrip(ts, TypographyToDict, TypographyFromDict);
  }

  /** `layout_to_dict`: `None` for a missing layout. */
  function LayoutToDict(l: Option<LayoutSummary>): Json {
    match l
    case None => JNull
    case Some(s) =>
      JObject([("aspect_ratio", JNumber(s.aspectRatio)),
               ("dominant_orientation", JString(s.dominantOrientation)),
               ("whitespace_ratio", JNumber(s.whitespaceRatio)),
               ("focal_regions", StringArray(s.focalRegions))])
  }

  function LayoutFromDict(j: Json): Option<Option<LayoutSummary>> {
    if j.JNull? then Some(None)
    else match (GetNumber(j, "aspect_ratio"), GetString(j, "dominant_orientation"),
                GetNumber(j, "whitespace_ratio"), GetStrings(j, "focal_regions"))
      case (Some(a), Some(o), Some(w), Some(f)) => Some(Some(LayoutSummary(a, o, w, f)))
      case _ => None
  }

  lemma LayoutRoundTrip(l: Option<LayoutSummary>)
    ensures l.None? <==> LayoutToDict(l) == JNull
    ensures LayoutFromDict(LayoutToDict(l)) == Some(l)
  {
    if l.Some? {
      GetAll(LayoutToDict(l).fields);
      assert Get(LayoutToDict(l).fields, "aspect_ratio") == Some(LayoutToDict(l).fields[0].1);
      assert Get(LayoutToDict(l).fields, "dominant_orientation") == Some(LayoutToDict(l).fields[1].1);
      assert Get(LayoutToDict(l).fields, "whitespace_ratio") == Some(LayoutToDict(l).fields[2].1);
      assert Get(LayoutToDict(l).fields, "focal_regions") == Some(LayoutToDict(l).fields[3].1);
      StringArrayRoundTrip(l.value.focalRegions);
    }
  }

  // ---------------------------------------------------------------------
  // image_to_dict, aggregated_to_dict
  // ---------------------------------------------------------------------

  function ImageToDict(e: ImageExtraction): Json {
    JObject([("source", JString(e.source)),
             ("colors", EncodeArray(e.colors, ColorToDict)),
             ("typography", EncodeArray(e.typography, TypographyToDict)),
             ("layout", LayoutToDict(e.layout)),
             ("detected_copy", StringArray(e.detectedCopy)),
             ("notes", StringArray(e.notes))])
  }

  function GetArray<T>(j: Json, key: string, dec: Json -> Option<T>): Option<seq<T>> {
    if !j.JObject? then None
    else match Get(j.fields, key)
      case Some(JArray(items)) => DecodeArray(items, dec)
      case _ => None
  }

  function GetLayout(j: Json): Option<Option<LayoutSummary>> {
    if !j.JObject? then None
    else match Get(j.fields, "layout")
      case Some(l) => LayoutFromDict(l)
      case None => None
  }

  function ImageFromDict(j: Json): Option<ImageExtraction> {
    match (GetString(j, "source"), GetArray(j, "colors", ColorFromDict),
           GetArray(j, "typography", TypographyFromDict), GetLayout(j),
           GetStrings(j, "detected_copy"), GetStrings(j, "notes"))
    case (Some(s), Some(c), Some(t), Some(l), Some(d), Some(n)) => Some(ImageExtraction(s, c, t, l, d, n))
    case _ => None
  }

  lemma ImageRoundTrip(e: ImageExtraction)
    ensures ImageFromDict(ImageToDict(e)) == Some(e)
  {
    ImageLookups(e);
    ColorsRoundTrip(e.colors);
    TypographiesRoundTrip(e.typography);
    LayoutRoundTrip(e.layout);
    StringArrayRoundTrip(e.detectedCopy);
    StringArrayRoundTrip(e.notes);
  }

  /** Each key of `image_to_dict` finds its own field. */
  lemma ImageLookups(e: ImageExtraction)
    ensures var f := ImageToDict(e).fields;
      && Get(f, "source") == Some(JString(e.source))
      && Get(f, "colors") == Some(EncodeArray(e.colors, ColorToDict))
      && Get(f, "typography") == Some(EncodeArray(e.typography, TypographyToDict))
      && Get(f, "layout") == Some(LayoutToDict(e.layout))
      && Get(f, "detected_copy") == Some(StringArray(e.detectedCopy))
      && Get(f, "notes") == Some(StringArray(e.notes))
  {
    var f := ImageToDict(e).fields;
    GetAll(f);
    assert Get(f, "source") == Some(f[0].1);
    assert Get(f, "colors") == Some(f[1].1);
    assert Get(f, "typography") == Some(f[2].1);
    assert Get(f, "layout") == Some(f[3].1);
    assert Get(f, "detected_copy") == Some(f[4].1);
    assert Get(f, "notes") == Some(f[5].1);
  }

  function AggregatedToDict(ev: AggregatedEvidence): Json {
    JObject([("images", EncodeArray(ev.images, ImageToDict)),
             ("palette", EncodeArray(ev.palette, ColorToDict)),
             ("typography", EncodeArray(ev.typography, TypographyToDict)),
             ("layout_patterns", StringArray(ev.layoutPatterns)),
             ("tone_descriptors", StringArray(ev.toneDescriptors)),
             ("copy_observations", StringArray(ev.copyObservations)),
             ("production_notes", StringArray(ev.productionNotes))])
  }

  function AggregatedFromDict(j: Json): Option<AggregatedEvidence> {
    match (GetArray(j, "images", ImageFromDict), GetArray(j, "palette", ColorFromDict),
           GetArray(j, "typography", TypographyFromDict), GetStrings(j, "layout_patterns"),
           GetStrings(j, "tone_descriptors"), GetStrings(j, "copy_observations"),
           GetStrings(j, "production_notes"))
    case (Some(i), Some(p), Some(t), Some(l), Some(d), Some(c), Some(n)) =>
      Some(AggregatedEvidence(i, p, t, l, d, c, n))
    case _ => None
  }

  lemma ImagesRoundTrip(es: seq<ImageExtraction>)
    ensures DecodeArray(EncodeArray(es, ImageToDict).items, ImageFromDict) == Some(es)
  {
    forall e ensures ImageFromDict(ImageToDict(e)) == Some(e) { ImageRoundTrip(e); }
    ArrayRoundTrip(es, ImageToDict, ImageFromDict);
  }

  /** Each key of `aggregated_to_dict` finds its own field. */
  lemma AggregatedLookups(ev: AggregatedEvidence)
    ensures var f := AggregatedToDict(ev).fields;
      && Get(f, "images") == Some(EncodeArray(ev.images, ImageToDict))
      && Get(f, "palette") == Some(EncodeArray(ev.palette, ColorToDict))
      && Get(f, "typography") == Some(EncodeArray(ev.typography, TypographyToDict))
      && Get(f, "layout_patterns") == Some(StringArray(ev.layoutPatterns))
      && Get(f, "tone_descriptors") == Some(StringArray(ev.toneDescriptors))
      && Get(f, "copy_observations") == Some(StringArray(ev.copyObservations))
      && Get(f, "production_notes") == Some(StringArray(ev.productionNotes))
  {
    var f := AggregatedToDict(ev).fields;
    GetAll(f);
    assert Get(f, "images") == Some(f[0].1);
    assert Get(f, "palette") == Some(f[1].1);
    assert Get(f, "typography") == Some(f[2].1);
    assert Get(f, "layout_patterns") == Some(f[3].1);
    assert Get(f, "tone_descriptors") == Some(f[4].1);
    assert Get(f, "copy_observations") == Some(f[5].1);
    assert Get(f, "production_notes") == Some(f[6].1);
  }

  /** The three list-of-record fields of `aggregated_to_dict` decode to the
      evidence's lists. */
  lemma AggregatedRecordFields(ev: AggregatedEvidence)
    ensures GetArray(AggregatedToDict(ev), "images", ImageFromDict) == Some(ev.images)
    ensures GetArray(AggregatedToDict(ev), "palette", ColorFromDict) == Some(ev.palette)
    ensures GetArray(AggregatedToDict(ev), "typography", TypographyFromDict) == Some(ev.typography)
  {
    AggregatedLookups(ev);
    ImagesRoundTrip(ev.images);
    ColorsRoundTrip(ev.palette);
    TypographiesRoundTrip(ev.typography);
  }

  /** The four list-of-string fields of `aggregated_to_dict` decode to the
      evidence's lists. */
  lemma AggregatedStringFields(ev: AggregatedEvidence)
    ensures GetStrings(AggregatedToDict(ev), "layout_patterns") == Some(ev.layoutPatterns)
    ensures GetStrings(AggregatedToDict(ev), "tone_descriptors") == Some(ev.toneDescriptors)
    ensures GetStrings(AggregatedToDict(ev), "copy_observations") == Some(ev.copyObservations)
    ensures GetStrings(AggregatedToDict(ev), "production_notes") == Some(ev.productionNotes)
  {
    AggregatedLookups(ev);
    StringArrayRoundTrip(ev.layoutPatterns);
    StringArrayRoundTrip(ev.toneDescriptors);
    StringArrayRoundTrip(ev.copyObservations);
    StringArrayRoundTrip(ev.productionNotes);
  }

  /** `aggregated_to_dict` loses nothing: decoding it gives the evidence back. */
  lemma AggregatedRoundTrip(ev: AggregatedEvidence)
    ensures AggregatedFromDict(AggregatedToDict(ev)) == Some(ev)
  {
    AggregatedRecordFields(ev);
    AggregatedStringFields(ev);
  }
}
