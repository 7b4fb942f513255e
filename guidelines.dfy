// Guideline synthesis (guidelines.py): the sections of a brand guideline
// document built from aggregated evidence or from a consolidated design
// specification, and their rendering to Markdown.

module Guidelines {
  import opened Collections
  import opened AsciiStrings
  import opened Pipeline
  import opened Colors
  import opened Layout
  import opened DesignSpec
  import opened GuidelineRules

  datatype Section = Section(title: string, body: seq<string>)

  datatype GuidelineDocument = GuidelineDocument(title: string, sections: seq<Section>)

  const ToneTitle := "Tone of Voice"
  const SocialTitle := "Social Media"
  const VisualTitle := "Visual System"
  const CornerTitle := "Corner Radius"
  const IconographyTitle := "Iconography"
  const LogoTitle := "Logo"
  const ColorTitle := "Color"
  const ProductionTitle := "Production References"

  /** The sections every document has, in order. */
  const CoreTitles: seq<string> :=
    [ToneTitle, SocialTitle, VisualTitle, CornerTitle, IconographyTitle, LogoTitle, ColorTitle]

  /** The brand name both builders use unless told otherwise. */
  const DefaultBrand := "Bynder"

  const TitleStem := " Brand Guidelines"
  const AutoSuffix := " (Auto-generated)"

  /** `f"{brand_name} Brand Guidelines (Auto-generated)"` */
  function DocumentTitle(brand: string): string {
    brand + TitleStem + AutoSuffix
  }

  function Titles(doc: GuidelineDocument): seq<string> {
    seq(|doc.sections|, i requires 0 <= i < |doc.sections| => doc.sections[i].title)
  }

  /** `", ".join(items)` */
  function Commas(items: seq<string>): string {
    Join(", ", items)
  }

  /** `str.replace(a, b)` for single characters. */
  function ReplaceChar(s: string, a: char, b: char): string {
    seq(|s|, i requires 0 <= i < |s| => if s[i] == a then b else s[i])
  }

  /** `f"{n}"` for a natural number. */
  function NatToString(n: nat): string {
    if n < 10 then [('0' as int + n) as char]
    else NatToString(n / 10) + [('0' as int + n % 10) as char]
  }

  // ---------------------------------------------------------------------
  // Wording
  // ---------------------------------------------------------------------
  // The fixed sentences each section writes. The builders take them as a
  // parameter, so what is proved about a document holds whatever the
  // sentences say; `SourceWording`, at the end of this module, is the text
  // guidelines.py writes.

  datatype ToneWording = ToneWording(
    heading: string, neutral: string, dominantLead: string, dominantTail: string,
    attributesLead: string, bold: string, sentence: string, mixed: string,
    descriptorsLead: string, principlesHeading: string,
    punchy: string, clarity: string, evidence: string, partner: string,
    doLead: string, dontLead: string)

  datatype SocialWording = SocialWording(
    heading: string,
    portraitFirst: string, portraitSecond: string,
    squareFirst: string, squareSecond: string,
    landscapeFirst: string, landscapeSecond: string,
    contextLead: string, contextTail: string,
    checklistHeading: string, tag: string, validate: string, approvals: string,
    modulesLead: string, ctaLead: string)

  datatype VisualWording = VisualWording(
    heading: string, evenLayout: string, hotspotLead: string, hotspotTail: string,
    anchorLead: string, anchorTail: string, accentLead: string, accentTail: string,
    gridLead: string, motionHeading: string, stack: string, offsets: string, imageryLead: string)

  datatype CornerWording = CornerWording(
    heading: string, soft: string, standard: string, tight: string,
    datablocks: string, physical: string, interactionLead: string)

  datatype IconWording = IconWording(
    heading: string, symbols: string, tintLead: string, tintTail: string,
    secondaryLead: string, secondaryTail: string, usageHeading: string,
    nest: string, containers: string, motifLead: string)

  datatype LogoWording = LogoWording(
    heading: string, lockupLead: string, lockupTail: string, clearspace: string,
    minimumSize: string, symbolHeading: string, mono: string, limitedColor: string,
    notesLead: string)

  datatype ColorWording = ColorWording(
    heading: string, specHeader: string, specRule: string, swatchHeader: string,
    swatchRule: string, noColors: string, contrast: string, coverage: string)

  datatype ProductionWording = ProductionWording(
    notesHeading: string, confidenceHeading: string, noOutstanding: string)

  datatype Wording = Wording(
    tone: ToneWording, social: SocialWording, visual: VisualWording,
    corner: CornerWording, icons: IconWording, logo: LogoWording,
    color: ColorWording, production: ProductionWording)

  // ---------------------------------------------------------------------
  // Tone of voice
  // ---------------------------------------------------------------------

  function DominantToneLine(w: ToneWording, t: Tone): string {
    w.dominantLead + ToneWords(t) + w.dominantTail
  }

  /** The palette line, `None` where the dominant hex makes `int(..., 16)` raise. */
  function PaletteToneLine(w: ToneWording, palette: seq<ColorSwatch>): Option<string> {
    if palette == [] then Some(w.neutral)
    else
      var b := RelativeBrightness(palette[0].hex);
      if b.None? then None else Some(DominantToneLine(w, ToneOf(b.value)))
  }

  function CasingLine(w: ToneWording, c: Casing): string {
    match c
    case BoldCasing => w.bold
    case SentenceCasing => w.sentence
    case MixedCasing => w.mixed
  }

  /** `enumerate(pillars, start=1)` as numbered bold lines. */
  function PillarLines(pillars: seq<string>): seq<string> {
    seq(|pillars|, i requires 0 <= i < |pillars| => NatToString(i + 1) + ". **" + pillars[i] + "**")
  }

  function PrincipleLines(w: ToneWording, voice: VoiceAndCopy, copy: seq<string>): seq<string> {
    if voice.messagingPillars != [] then PillarLines(voice.messagingPillars)
    else [if AverageLength(copy) <= 4.0 then w.punchy else w.clarity, w.evidence, w.partner]
  }

  function DosAndDonts(w: ToneWording, voice: VoiceAndCopy): seq<string> {
    if voice.dos == [] && voice.donts == [] then []
    else
      [""]
      + (if voice.dos != [] then [w.doLead + Commas(voice.dos)] else [])
      + (if voice.donts != [] then [w.dontLead + Commas(voice.donts)] else [])
  }

  function AttributeLines(w: ToneWording, brand: BrandIdentity): seq<string> {
    if brand.coreAttributes != [] then [w.attributesLead + Commas(brand.coreAttributes) + "."] else []
  }

  function DescriptorLines(w: ToneWording, voice: VoiceAndCopy): seq<string> {
    if voice.toneDescriptors != [] then [w.descriptorsLead + Commas(voice.toneDescriptors) + "."] else []
  }

  /** `_tone_of_voice_section`; `None` where the brightness of the dominant
      colour cannot be read. */
  function ToneOfVoiceSection(w: ToneWording, palette: seq<ColorSwatch>, copy: seq<string>,
                              voice: VoiceAndCopy, brand: BrandIdentity): (r: Option<Section>)
    ensures r.Some? <==> PaletteToneLine(w, palette).Some?
    ensures r.Some? ==> r.value.title == ToneTitle
  {
    var tone := PaletteToneLine(w, palette);
    if tone.None? then None
    else Some(Section(ToneTitle,
      [w.heading, tone.value]
      + AttributeLines(w, brand)
      + [CasingLine(w, CasingOf(UppercaseRatioSpec(copy), copy != []))]
      + DescriptorLines(w, voice)
      + ["", w.principlesHeading]
      + PrincipleLines(w, voice, copy)
      + DosAndDonts(w, voice)))
  }

  // ---------------------------------------------------------------------
  // Social media
  // ---------------------------------------------------------------------

  function ChannelLines(w: SocialWording, orientation: string): seq<string> {
    if orientation == Portrait then [w.portraitFirst, w.portraitSecond]
    else if orientation == Square then [w.squareFirst, w.squareSecond]
    else [w.landscapeFirst, w.landscapeSecond]
  }

  /** `_social_media_section` */
  function SocialMediaSection(w: SocialWording, labels: seq<string>, designContext: seq<string>,
                              keyComponents: seq<string>, callouts: seq<string>): (r: Section)
    ensures r.title == SocialTitle
  {
    Section(SocialTitle,
      [w.heading]
      + ChannelLines(w, MostCommonOrientation(labels))
      + (if designContext != [] then [w.contextLead + Commas(designContext) + w.contextTail] else [])
      + ["", w.checklistHeading, w.tag, w.validate, w.approvals]
      + (if keyComponents != [] then [w.modulesLead + Commas(keyComponents) + "."] else [])
      + (if callouts != [] then [w.ctaLead + Commas(callouts) + "."] else []))
  }

  // ---------------------------------------------------------------------
  // Visual system
  // ---------------------------------------------------------------------

  function FocalOf(e: ImageExtraction): seq<string> {
    if e.layout.Some? then e.layout.value.focalRegions else []
  }

  /** Every focal region of every image with a layout, in order: what the
      `Counter` of `_visual_system_section` counts. */
  function FocalLabels(evidence: Option<AggregatedEvidence>): seq<string> {
    if evidence.Some? then FlatMap(evidence.value.images, FocalOf) else []
  }

  /** `f"{field.replace('_', ' ')}: {', '.join(items)}"` for every non-empty field. */
  function ImageryNotes(fields: seq<(string, seq<string>)>): seq<string> {
    if fields == [] then []
    else (if fields[0].1 != [] then [ReplaceChar(fields[0].0, '_', ' ') + ": " + Commas(fields[0].1)] else [])
         + ImageryNotes(fields[1..])
  }

  function HotspotLine(w: VisualWording, hotspots: seq<string>): string {
    w.hotspotLead + Commas(hotspots) + w.hotspotTail
  }

  /** `_visual_system_section` */
  function VisualSystemSection(w: VisualWording, palette: seq<ColorSwatch>, evidence: Option<AggregatedEvidence>,
                               visual: VisualIdentity, layout: LayoutAndComponents): (r: Section)
    ensures r.title == VisualTitle
  {
    var regions := FocalLabels(evidence);
    var imagery := ImageryNotes(ImageryFields(visual.imageryStyle));
    Section(VisualTitle,
      [w.heading, if regions != [] then HotspotLine(w, TopLabels(regions, 3)) else w.evenLayout]
      + (if palette != [] then [w.anchorLead + palette[0].name + " (" + palette[0].hex + w.anchorTail] else [])
      + (if |palette| >= 3 then [w.accentLead + Lower(palette[2].name) + w.accentTail] else [])
      + (if layout.gridAndSpacing != [] then [w.gridLead + Commas(layout.gridAndSpacing) + "."] else [])
      + ["", w.motionHeading, w.stack, w.offsets]
      + (if imagery != [] then [w.imageryLead + Join("; ", imagery) + "."] else []))
  }

  // ---------------------------------------------------------------------
  // Corner radius, iconography, logo
  // ---------------------------------------------------------------------

  function RadiusLine(w: CornerWording, r: Radius): string {
    match r
    case SoftRadius => w.soft
    case StandardRadius => w.standard
    case TightRadius => w.tight
  }

  /** `_corner_radius_section` */
  function CornerRadiusSection(w: CornerWording, evidence: Option<AggregatedEvidence>, layout: LayoutAndComponents): (r: Section)
    ensures r.title == CornerTitle
  {
    Section(CornerTitle,
      [w.heading, RadiusLine(w, RadiusOf(AverageWhitespace(evidence))), w.datablocks, w.physical]
      + (if layout.interactionNotes != [] then [w.interactionLead + Commas(layout.interactionNotes) + "."] else []))
  }

  /** The tint both the iconography and the logo section lead with. */
  function PrimaryHex(palette: seq<ColorSwatch>): string {
    if palette != [] then palette[0].hex else FallbackHex
  }

  function PrimaryTintLine(w: IconWording, palette: seq<ColorSwatch>): string {
    w.tintLead + PrimaryHex(palette) + w.tintTail
  }

  /** `_iconography_section` */
  function IconographySection(w: IconWording, palette: seq<ColorSwatch>, iconography: seq<string>): (r: Section)
    ensures r.title == IconographyTitle
  {
    Section(IconographyTitle,
      [w.heading, w.symbols, PrimaryTintLine(w, palette)]
      + (if |palette| > 1 then [w.secondaryLead + palette[1].hex + w.secondaryTail] else [])
      + ["", w.usageHeading, w.nest, w.containers]
      + (if iconography != [] then [w.motifLead + Commas(iconography) + "."] else []))
  }

  function LockupLine(w: LogoWording, palette: seq<ColorSwatch>): string {
    w.lockupLead + PrimaryHex(palette) + w.lockupTail
  }

  /** `_logo_section` */
  function LogoSection(w: LogoWording, palette: seq<ColorSwatch>, logoUsage: seq<string>): (r: Section)
    ensures r.title == LogoTitle
  {
    Section(LogoTitle,
      [w.heading, LockupLine(w, palette), w.clearspace, w.minimumSize,
       "", w.symbolHeading, w.mono, w.limitedColor]
      + (if logoUsage != [] then [w.notesLead + Commas(logoUsage) + "."] else []))
  }

  // ---------------------------------------------------------------------
  // Colour
  // ---------------------------------------------------------------------

  const Dash := "—"

  /** `", ".join(items) or "—"` */
  function OrDash(items: seq<string>): string {
    var j := Commas(items);
    if j == "" then Dash else j
  }

  function SpecRow(c: PaletteEntry): string {
    "| " + c.hex.GetOr(Dash) + " | " + OrDash(c.names) + " | " + OrDash(c.usageNotes)
    + " | " + OrDash(c.finishes) + " | " + OrDash(c.additionalNotes) + " |"
  }

  function SwatchRow(s: ColorSwatch): string {
    "| " + s.hex + " | " + s.name + " | " + s.usageHint + " |"
  }

  function ColorFooter(w: ColorWording): seq<string> {
    ["", w.contrast, w.coverage]
  }

  /** `_color_section`: the specification's table when it lists colours,
      otherwise the swatch table, or the early return for no colours. */
  function ColorSection(w: ColorWording, palette: seq<ColorSwatch>, paletteSpec: seq<PaletteEntry>): (r: Section)
    ensures r.title == ColorTitle
  {
    if paletteSpec != [] then
      Section(ColorTitle, [w.heading, w.specHeader, w.specRule] + SpecRows(paletteSpec) + ColorFooter(w))
    else if palette == [] then
      Section(ColorTitle, [w.heading, w.noColors])
    else
      Section(ColorTitle, [w.heading, w.swatchHeader, w.swatchRule] + SwatchRows(palette) + ColorFooter(w))
  }

  function SpecRows(paletteSpec: seq<PaletteEntry>): (rows: seq<string>)
    ensures |rows| == |paletteSpec| && forall i :: 0 <= i < |paletteSpec| ==> rows[i] == SpecRow(paletteSpec[i])
  {
    seq(|paletteSpec|, i requires 0 <= i < |paletteSpec| => SpecRow(paletteSpec[i]))
  }

  function SwatchRows(palette: seq<ColorSwatch>): (rows: seq<string>)
    ensures |rows| == |palette| && forall i :: 0 <= i < |palette| ==> rows[i] == SwatchRow(palette[i])
  {
    seq(|palette|, i requires 0 <= i < |palette| => SwatchRow(palette[i]))
  }

  // ---------------------------------------------------------------------
  // Production references
  // ---------------------------------------------------------------------

  /** `f"- **{image}:** {note}"` with the defaults "asset" and "". */
  function ConfidenceLine(e: ConfidenceNote): string {
    "- **" + e.image.GetOr("asset") + ":** " + e.note.GetOr("")
  }

  function NoteLines(notes: seq<string>): seq<string> {
    seq(|notes|, i requires 0 <= i < |notes| => "- " + notes[i])
  }

  function ConfidenceLines(entries: seq<ConfidenceNote>): seq<string> {
    seq(|entries|, i requires 0 <= i < |entries| => ConfidenceLine(entries[i]))
  }

  function ProductionBody(w: ProductionWording, production: seq<string>, confidence: seq<ConfidenceNote>): seq<string> {
    var p := if production != [] then [w.notesHeading] + NoteLines(production) else [];
    var c := if confidence != [] then (if p != [] then [""] else []) + [w.confidenceHeading] + ConfidenceLines(confidence) else [];
    if p + c != [] then p + c else [w.noOutstanding]
  }

  /** `_production_notes_section` */
  method ProductionNotesSection(w: ProductionWording, production: seq<string>, confidence: seq<ConfidenceNote>)
    returns (s: Section)
    ensures s == Section(ProductionTitle, ProductionBody(w, production, confidence))
  {
    var lines: seq<string> := [];
    if production != [] {
      lines := lines + [w.notesHeading];
      for i := 0 to |production|
        invariant lines == [w.notesHeading] + NoteLines(production[..i])
      {
        lines := lines + ["- " + production[i]];
      }
      assert production[..|production|] == production;
    }
    if confidence != [] {
      if lines != [] {
        lines := lines + [""];
      }
      lines := lines + [w.confidenceHeading];
      ghost var head := lines;
      for i := 0 to |confidence|
        invariant lines == head + ConfidenceLines(confidence[..i])
      {
        var entry := confidence[i];
        var image := entry.image.GetOr("asset");
        var note := entry.note.GetOr("");
        lines := lines + ["- **" + image + ":** " + note];
      }
      assert confidence[..|confidence|] == confidence;
    }
    s := Section(ProductionTitle, if lines != [] then lines else [w.noOutstanding]);
  }

  /** The trailing section both builders add when there is something to report. */
  function ProductionSections(w: ProductionWording, production: seq<string>, confidence: seq<ConfidenceNote>): (r: seq<Section>)
  {
    if production != [] || confidence != [] then [Section(ProductionTitle, ProductionBody(w, production, confidence))] else []
  }

  // ---------------------------------------------------------------------
  // Documents
  // ---------------------------------------------------------------------

  /** `build_document`: the seven core sections from local evidence, and the
      production notes when the evidence has any; `None` where the tone
      section raises. */
  function BuildDocument(w: Wording, evidence: AggregatedEvidence, brand: string): Option<GuidelineDocument> {
    var palette := evidence.palette;
    var tone := ToneOfVoiceSection(w.tone, palette, evidence.copyObservations, EmptyVoice, EmptyBrand);
    if tone.None? then None
    else Some(GuidelineDocument(DocumentTitle(brand),
      [tone.value,
       SocialMediaSection(w.social, evidence.layoutPatterns, [], [], []),
       VisualSystemSection(w.visual, palette, Some(evidence), EmptyVisual, EmptyLayout),
       CornerRadiusSection(w.corner, Some(evidence), EmptyLayout),
       IconographySection(w.icons, palette, []),
       LogoSection(w.logo, palette, []),
       ColorSection(w.color, palette, [])]
      + ProductionSections(w.production, evidence.productionNotes, [])))
  }

  /** `build_document_from_spec`: the palette comes from the specification's
      colours, copy and layout labels from the optional evidence. */
  function BuildDocumentFromSpec(w: Wording, compiled: Compiled, brand: string, evidence: Option<AggregatedEvidence>): Option<GuidelineDocument> {
    var visual := compiled.visualIdentity;
    var layout := compiled.layoutAndComponents;
    var swatches := PaletteSwatches(visual.colorPalette);
    var labels := if evidence.Some? then evidence.value.layoutPatterns else [];
    var copy := if evidence.Some? then evidence.value.copyObservations else [];
    var tone := ToneOfVoiceSection(w.tone, swatches, copy, compiled.voiceAndCopy, compiled.brandIdentity);
    if tone.None? then None
    else Some(GuidelineDocument(DocumentTitle(brand),
      [tone.value,
       SocialMediaSection(w.social, labels, compiled.brandIdentity.designContext, layout.keyComponents, layout.callToActionTreatment),
       VisualSystemSection(w.visual, swatches, evidence, visual, layout),
       CornerRadiusSection(w.corner, evidence, layout),
       IconographySection(w.icons, swatches, visual.imageryStyle.iconography),
       LogoSection(w.logo, swatches, visual.logoUsage),
       ColorSection(w.color, swatches, visual.colorPalette)]
      + ProductionSections(w.production, compiled.productionNotes, compiled.confidenceNotes)))
  }

  // ---------------------------------------------------------------------
  // Markdown
  // ---------------------------------------------------------------------

  const Footer := "_Generated from current design asset gallery._"

  /** `section.title.lower().replace(" ", "-")` */
  function Anchor(title: string): string {
    ReplaceChar(Lower(title), ' ', '-')
  }

  function TocLine(s: Section): string {
    "- [" + s.title + "](#" + Anchor(s.title) + ")"
  }

  function TocLines(sections: seq<Section>): seq<string> {
    seq(|sections|, i requires 0 <= i < |sections| => TocLine(sections[i]))
  }

  /** The lines one section renders to. */
  function Block(s: Section): seq<string> {
    ["## " + s.title, ""] + s.body + Pad(s.body) + ["***", ""]
  }

  lemma BlockAppended(before: seq<string>, s: Section)
    ensures before + ["## " + s.title] + [""] + s.body + Pad(s.body) + ["***"] + [""] == before + Block(s)
  {
  }

  /** The blank line added after a body that does not end with one. */
  function Pad(body: seq<string>): seq<string> {
    if body != [] && body[|body| - 1] != "" then [""] else []
  }

  function Header(doc: GuidelineDocument): seq<string> {
    ["# " + doc.title, "", "## Table of Contents", ""]
  }

  function RenderLines(doc: GuidelineDocument): seq<string> {
    Header(doc) + TocLines(doc.sections) + ["", "***", ""] + FlatMap(doc.sections, Block) + [Footer]
  }

  /** `render_markdown(document)` */
  method RenderMarkdown(doc: GuidelineDocument) returns (markdown: string)
    ensures markdown == Join("\n", RenderLines(doc))
  {
    var lines: seq<string> := ["# " + doc.title];
    lines := lines + [""];
    lines := lines + ["## Table of Contents"];
    lines := lines + [""];
    WholePrefix(doc.sections);
    for i := 0 to |doc.sections|
      invariant lines == Header(doc) + TocLines(doc.sections[..i])
    {
      var section := doc.sections[i];
      var anchor := Anchor(section.title);
      TocStep(doc.sections, i);
      AppendAssoc(Header(doc), TocLines(doc.sections[..i]), [TocLine(section)]);
      lines := lines + ["- [" + section.title + "](#" + anchor + ")"];
    }
    lines := lines + [""];
    lines := lines + ["***"];
    lines := lines + [""];
    ghost var head := lines;
    for i := 0 to |doc.sections|
      invariant lines == head + FlatMap(doc.sections[..i], Block)
    {
      var section := doc.sections[i];
      PrefixNext(doc.sections, i);
      FlatMapSnoc(doc.sections[..i], section, Block);
      AppendAssoc(head, FlatMap(doc.sections[..i], Block), Block(section));
      lines := AppendBlock(lines, section);
    }
    lines := lines + [Footer];
    assert lines == RenderLines(doc);
    markdown := Join("\n", lines);
  }

  lemma TocStep(sections: seq<Section>, i: nat)
    requires i < |sections|
    ensures TocLines(sections[..i + 1]) == TocLines(sections[..i]) + [TocLine(sections[i])]
  {
  }

  /** One section of the body loop of `render_markdown`. */
  method AppendBlock(lines: seq<string>, section: Section) returns (out: seq<string>)
    ensures out == lines + Block(section)
  {
    out := lines + ["## " + section.title];
    out := out + [""];
    out := out + section.body;
    if section.body != [] && section.body[|section.body| - 1] != "" {
      out := out + [""];
    }
    assert out == lines + ["## " + section.title] + [""] + section.body + Pad(section.body);
    out := out + ["***"];
    out := out + [""];
    BlockAppended(lines, section);
  }

  // ---------------------------------------------------------------------
  // Properties
  // ---------------------------------------------------------------------

  /** `s[i:i + n]` where that is in range. */
  function Window(s: string, i: nat, n: nat): string {
    if i + n <= |s| then s[i..i + n] else ""
  }

  /** `p in s` for strings. */
  predicate IsInfix(p: string, s: string) {
    exists i: nat :: i + |p| <= |s| && Window(s, i, |p|) == p
  }

  lemma InfixIn(a: string, p: string, b: string)
    ensures IsInfix(p, a + p + b)
  {
    assert Window(a + p + b, |a|, |p|) == p;
  }

  lemma InfixTrans(p: string, q: string, s: string)
    requires IsInfix(p, q) && IsInfix(q, s)
    ensures IsInfix(p, s)
  {
    var i: nat :| i + |p| <= |q| && Window(q, i, |p|) == p;
    var j: nat :| j + |q| <= |s| && Window(s, j, |q|) == q;
    assert q[i..i + |p|] == p;
    assert s[j..j + |q|] == q;
    assert s[j + i..j + i + |p|] == p by {
      forall k | 0 <= k < |p|
        ensures s[j + i + k] == p[k]
      {
        assert s[j + i + k] == s[j..j + |q|][i + k];
      }
    }
    assert Window(s, j + i, |p|) == p;
  }

  /** Every joined item occurs in the joined string. */
  lemma {:induction false} JoinHasItem(sep: string, ws: seq<string>, k: nat)
    requires k < |ws|
    ensures IsInfix(ws[k], Join(sep, ws))
  {
    if |ws| == 1 {
      InfixIn("", ws[0], "");
      assert "" + ws[0] + "" == Join(sep, ws);
    } else if k == 0 {
      InfixIn("", ws[0], sep + Join(sep, ws[1..]));
      assert "" + ws[0] + (sep + Join(sep, ws[1..])) == Join(sep, ws);
    } else {
      JoinHasItem(sep, ws[1..], k - 1);
      var rest := Join(sep, ws[1..]);
      InfixIn(ws[0] + sep, rest, "");
      assert ws[0] + sep + rest + "" == Join(sep, ws);
      InfixTrans(ws[k], rest, Join(sep, ws));
    }
  }

  lemma FlatMapHas<T, U>(s: seq<T>, f: T -> seq<U>, k: nat, y: U)
    requires k < |s| && y in f(s[k])
    ensures y in FlatMap(s, f)
  {
    assert s == s[..k] + [s[k]] + s[k + 1..];
    FlatMapAppend(s[..k] + [s[k]], s[k + 1..], f);
    FlatMapSnoc(s[..k], s[k], f);
  }

  /** A section's block: its heading, a blank line, its body, and a blank
      line before the separator whether or not the body ends with one. */
  lemma BlockShape(s: Section)
    ensures var b := Block(s);
      && |b| >= 4
      && b[0] == "## " + s.title && b[1] == ""
      && b[2..2 + |s.body|] == s.body
      && b[|b| - 3] == "" && b[|b| - 2] == "***" && b[|b| - 1] == ""
      && |b| <= |s.body| + 5
  {
  }

  /** Anchors are the lower-cased title with hyphens for spaces. */
  lemma AnchorShape(title: string)
    ensures var a := Anchor(title);
      && |a| == |title|
      && ' ' !in a
      && (forall i :: 0 <= i < |a| ==> !IsUpperChar(a[i]))
      && (forall i :: 0 <= i < |a| ==> a[i] == if title[i] == ' ' then '-' else ToLowerChar(title[i]))
  {
    var a := Anchor(title);
    forall i | 0 <= i < |a|
      ensures a[i] != ' ' && !IsUpperChar(a[i])
    {
    }
  }

  /** The rendered lines: the title, the table of contents with one entry per
      section in order, then every section's block, then the footer. */
  lemma RenderShape(doc: GuidelineDocument)
    ensures var lines := RenderLines(doc);
      var n := |doc.sections|;
      && |lines| == 8 + n + |FlatMap(doc.sections, Block)|
      && lines[0] == "# " + doc.title
      && lines[2] == "## Table of Contents"
      && (forall k :: 0 <= k < n ==> lines[4 + k] == TocLine(doc.sections[k]))
      && lines[4 + n + 1] == "***"
      && lines[|lines| - 1] == Footer
      && (forall k :: 0 <= k < n ==> "## " + doc.sections[k].title in lines)
  {
    DocumentLayout(Header(doc), TocLines(doc.sections), FlatMap(doc.sections, Block), Footer);
    RenderHeadings(doc);
  }

  /** Where the header, the contents lines, the separator and the footer sit
      among the rendered lines. */
  lemma DocumentLayout(header: seq<string>, toc: seq<string>, blocks: seq<string>, footer: string)
    requires |header| == 4
    ensures var lines := header + toc + ["", "***", ""] + blocks + [footer];
      && |lines| == 8 + |toc| + |blocks|
      && lines[0] == header[0] && lines[2] == header[2]
      && (forall k :: 0 <= k < |toc| ==> lines[4 + k] == toc[k])
      && lines[4 + |toc| + 1] == "***"
      && lines[|lines| - 1] == footer
  {
  }

  /** Every section's heading line is among the rendered lines. */
  lemma RenderHeadings(doc: GuidelineDocument)
    ensures forall k :: 0 <= k < |doc.sections| ==> "## " + doc.sections[k].title in RenderLines(doc)
  {
    var lines := RenderLines(doc);
    var blocks := FlatMap(doc.sections, Block);
    assert forall x :: x in blocks ==> x in lines;
    forall k | 0 <= k < |doc.sections|
      ensures "## " + doc.sections[k].title in lines
    {
      FlatMapHas(doc.sections, Block, k, "## " + doc.sections[k].title);
    }
  }

  /** The rendered Markdown mentions the document's title and every section title. */
  lemma RenderMentions(doc: GuidelineDocument, k: nat)
    requires k < |doc.sections|
    ensures IsInfix(doc.title, Join("\n", RenderLines(doc)))
    ensures IsInfix(doc.sections[k].title, Join("\n", RenderLines(doc)))
  {
    var lines := RenderLines(doc);
    var md := Join("\n", lines);
    RenderShape(doc);
    JoinHasItem("\n", lines, 0);
    InfixIn("# ", doc.title, "");
    assert "# " + doc.title + "" == lines[0];
    InfixTrans(doc.title, lines[0], md);
    var line := "## " + doc.sections[k].title;
    var j :| 0 <= j < |lines| && lines[j] == line;
    JoinHasItem("\n", lines, j);
    InfixIn("## ", doc.sections[k].title, "");
    assert "## " + doc.sections[k].title + "" == line;
    InfixTrans(doc.sections[k].title, line, md);
  }
  // ---------------------------------------------------------------------
  // Documents
  // ---------------------------------------------------------------------

  /** Seven sections with the core titles, then at most one production
      section: the document's titles are the core titles in order. */
  lemma CoreSectionsInOrder(title: string, tone: Section, social: Section, visual: Section, corner: Section,
                            icons: Section, logo: Section, color: Section, extra: seq<Section>)
    requires tone.title == ToneTitle && social.title == SocialTitle && visual.title == VisualTitle
    requires corner.title == CornerTitle && icons.title == IconographyTitle && logo.title == LogoTitle
    requires color.title == ColorTitle
    requires |extra| <= 1 && (extra != [] ==> extra[0].title == ProductionTitle)
    ensures var d := GuidelineDocument(title, [tone, social, visual, corner, icons, logo, color] + extra);
      && |d.sections| == 7 + |extra|
      && d.sections[0] == tone && d.sections[6] == color
      && (extra != [] ==> d.sections[7] == extra[0])
      && Titles(d) == CoreTitles + (if extra != [] then [ProductionTitle] else [])
  {
    var d := GuidelineDocument(title, [tone, social, visual, corner, icons, logo, color] + extra);
    assert |Titles(d)| == |CoreTitles + (if extra != [] then [ProductionTitle] else [])|;
    forall i | 0 <= i < |Titles(d)|
      ensures Titles(d)[i] == (CoreTitles + (if extra != [] then [ProductionTitle] else []))[i]
    {
      if i < 7 {} else {}
    }
  }

  /** Unfolds `BuildDocument` into its sections, for the lemmas below;
      what the document promises is stated by `BuildDocumentShape` and
      `BuildDocumentFails`. */
  lemma BuildDocumentSections(w: Wording, evidence: AggregatedEvidence, brand: string)
    ensures var d := BuildDocument(w, evidence, brand);
      var tone := ToneOfVoiceSection(w.tone, evidence.palette, evidence.copyObservations, EmptyVoice, EmptyBrand);
      && (d.Some? <==> tone.Some?)
      && (d.Some? ==> d.value == GuidelineDocument(DocumentTitle(brand),
           [tone.value,
            SocialMediaSection(w.social, evidence.layoutPatterns, [], [], []),
            VisualSystemSection(w.visual, evidence.palette, Some(evidence), EmptyVisual, EmptyLayout),
            CornerRadiusSection(w.corner, Some(evidence), EmptyLayout),
            IconographySection(w.icons, evidence.palette, []),
            LogoSection(w.logo, evidence.palette, []),
            ColorSection(w.color, evidence.palette, [])]
           + ProductionSections(w.production, evidence.productionNotes, [])))
  {
  }

  /** The tone line is the only thing that can fail, and it fails exactly
      when the dominant colour's hex code cannot be parsed. */
  lemma BuildDocumentFails(w: Wording, evidence: AggregatedEvidence, brand: string)
    ensures BuildDocument(w, evidence, brand).None? <==>
              evidence.palette != [] && Channels(evidence.palette[0].hex).None?
  {
    BuildDocumentSections(w, evidence, brand);
  }

  /** A built document carries the brand's title, the seven core sections in
      order and then the production notes when the evidence has any. */
  lemma BuildDocumentShape(w: Wording, evidence: AggregatedEvidence, brand: string)
    ensures var d := BuildDocument(w, evidence, brand);
      var palette := evidence.palette;
      (d.Some? ==>
            && d.value.title == DocumentTitle(brand)
            && Titles(d.value) == CoreTitles + (if evidence.productionNotes != [] then [ProductionTitle] else [])
            && d.value.sections[0] == ToneOfVoiceSection(w.tone, palette, evidence.copyObservations, EmptyVoice, EmptyBrand).value
            && d.value.sections[6] == ColorSection(w.color, palette, [])
            && (evidence.productionNotes != [] ==>
                  d.value.sections[7] == Section(ProductionTitle, ProductionBody(w.production, evidence.productionNotes, []))))
  {
    BuildDocumentSections(w, evidence, brand);
    var palette := evidence.palette;
    var tone := ToneOfVoiceSection(w.tone, palette, evidence.copyObservations, EmptyVoice, EmptyBrand);
    if tone.Some? {
      CoreSectionsInOrder(DocumentTitle(brand), tone.value,
        SocialMediaSection(w.social, evidence.layoutPatterns, [], [], []),
        VisualSystemSection(w.visual, palette, Some(evidence), EmptyVisual, EmptyLayout),
        CornerRadiusSection(w.corner, Some(evidence), EmptyLayout),
        IconographySection(w.icons, palette, []),
        LogoSection(w.logo, palette, []),
        ColorSection(w.color, palette, []),
        ProductionSections(w.production, evidence.productionNotes, []));
    }
  }

  /** For a palette from `extract_colors` the document always builds, and the
      tone follows the dominant colour's brightness; without colours the tone
      is neutral. */
  lemma ToneFromPalette(w: Wording, evidence: AggregatedEvidence, brand: string, c: Rgb)
    requires evidence.palette == [] || evidence.palette[0].hex == HexCode(c)
    ensures BuildDocument(w, evidence, brand).Some?
    ensures var body := BuildDocument(w, evidence, brand).value.sections[0].body;
      body[1] == if evidence.palette == [] then w.tone.neutral
                 else DominantToneLine(w.tone, ToneOf(Brightness((c.r as int, c.g as int, c.b as int))))
  {
    if evidence.palette != [] {
      HexCodeChannels(c);
    }
    BuildDocumentShape(w, evidence, brand);
    ToneSectionShape(w.tone, evidence.palette, evidence.copyObservations, EmptyVoice, EmptyBrand);
  }

  /** The markdown of a document titled for `brand` whose sections start
      with the core ones names the brand's guidelines, the tone of voice and
      the colour section. */
  lemma CoreMentions(doc: GuidelineDocument, brand: string, extra: seq<string>)
    requires doc.title == DocumentTitle(brand) && Titles(doc) == CoreTitles + extra
    ensures var md := Join("\n", RenderLines(doc));
      IsInfix(brand + TitleStem, md) && IsInfix(ToneTitle, md) && IsInfix(ColorTitle, md)
  {
    CoreTitlesAt(doc, extra);
    RenderMentions(doc, 0);
    RenderMentions(doc, 6);
    TitleMentionsBrand(doc, brand);
  }

  /** The core titles open the section list, tone first and colour seventh. */
  lemma CoreTitlesAt(doc: GuidelineDocument, extra: seq<string>)
    requires Titles(doc) == CoreTitles + extra
    ensures |doc.sections| >= 7
    ensures doc.sections[0].title == ToneTitle && doc.sections[6].title == ColorTitle
  {
    assert Titles(doc)[0] == CoreTitles[0];
    assert Titles(doc)[6] == CoreTitles[6];
  }

  /** The rendered title line names the brand's guidelines. */
  lemma TitleMentionsBrand(doc: GuidelineDocument, brand: string)
    requires doc.title == DocumentTitle(brand) && |doc.sections| > 0
    ensures IsInfix(brand + TitleStem, Join("\n", RenderLines(doc)))
  {
    RenderMentions(doc, 0);
    InfixPrefix(brand + TitleStem, AutoSuffix);
    InfixTrans(brand + TitleStem, doc.title, Join("\n", RenderLines(doc)));
  }

  lemma InfixPrefix(p: string, q: string)
    ensures IsInfix(p, p + q)
  {
    assert Window(p + q, 0, |p|) == p;
  }

  /** The markdown for a locally built document names the brand's guidelines,
      the tone of voice and the colour section. */
  lemma MarkdownMentionsCore(w: Wording, evidence: AggregatedEvidence, brand: string)
    requires BuildDocument(w, evidence, brand).Some?
    ensures var md := Join("\n", RenderLines(BuildDocument(w, evidence, brand).value));
      && IsInfix(brand + TitleStem, md)
      && IsInfix(ToneTitle, md)
      && IsInfix(ColorTitle, md)
  {
    BuildDocumentShape(w, evidence, brand);
    CoreMentions(BuildDocument(w, evidence, brand).value, brand,
      if evidence.productionNotes != [] then [ProductionTitle] else []);
  }

  /** Unfolds `BuildDocumentFromSpec` into its sections, for the lemmas
      below; what the document promises is stated by
      `BuildDocumentFromSpecShape` and `BuildDocumentFromSpecFails`. */
  lemma BuildDocumentFromSpecSections(w: Wording, compiled: Compiled, brand: string, evidence: Option<AggregatedEvidence>)
    ensures var d := BuildDocumentFromSpec(w, compiled, brand, evidence);
      var visual := compiled.visualIdentity;
      var layout := compiled.layoutAndComponents;
      var swatches := PaletteSwatches(visual.colorPalette);
      var labels := if evidence.Some? then evidence.value.layoutPatterns else [];
      var copy := if evidence.Some? then evidence.value.copyObservations else [];
      var tone := ToneOfVoiceSection(w.tone, swatches, copy, compiled.voiceAndCopy, compiled.brandIdentity);
      && (d.Some? <==> tone.Some?)
      && (d.Some? ==> d.value == GuidelineDocument(DocumentTitle(brand),
           [tone.value,
            SocialMediaSection(w.social, labels, compiled.brandIdentity.designContext, layout.keyComponents, layout.callToActionTreatment),
            VisualSystemSection(w.visual, swatches, evidence, visual, layout),
            CornerRadiusSection(w.corner, evidence, layout),
            IconographySection(w.icons, swatches, visual.imageryStyle.iconography),
            LogoSection(w.logo, swatches, visual.logoUsage),
            ColorSection(w.color, swatches, visual.colorPalette)]
           + ProductionSections(w.production, compiled.productionNotes, compiled.confidenceNotes)))
  {
  }

  /** From a specification: it fails exactly when the first listed colour's
      hex code cannot be parsed. */
  lemma BuildDocumentFromSpecFails(w: Wording, compiled: Compiled, brand: string, evidence: Option<AggregatedEvidence>)
    ensures var spec := compiled.visualIdentity.colorPalette;
      var d := BuildDocumentFromSpec(w, compiled, brand, evidence);
      d.Some? <==> spec == [] || Channels(spec[0].hex.GetOr(MissingHex)).Some?
  {
    BuildDocumentFromSpecSections(w, compiled, brand, evidence);
    var spec := compiled.visualIdentity.colorPalette;
    PaletteSwatchesProps(spec);
    if spec == [] {
      FallbackChannels();
    }
  }

  /** A document built from a specification keeps the title; the production
      section appears when there are production or confidence notes; the
      colour table is the specification's when it lists colours and the
      fallback swatch's otherwise. */
  lemma BuildDocumentFromSpecShape(w: Wording, compiled: Compiled, brand: string, evidence: Option<AggregatedEvidence>)
    requires BuildDocumentFromSpec(w, compiled, brand, evidence).Some?
    ensures var spec := compiled.visualIdentity.colorPalette;
      var d := BuildDocumentFromSpec(w, compiled, brand, evidence).value;
      && d.title == DocumentTitle(brand)
      && Titles(d) == CoreTitles
           + (if compiled.productionNotes != [] || compiled.confidenceNotes != [] then [ProductionTitle] else [])
      && |d.sections| >= 7 && |d.sections[6].body| >= 2
      && d.sections[6].body[1] == (if spec != [] then w.color.specHeader else w.color.swatchHeader)
      && (spec == [] ==> |d.sections[6].body| >= 4 && d.sections[6].body[3] == SwatchRow(FallbackSwatch))
  {
    BuildDocumentFromSpecSections(w, compiled, brand, evidence);
    var visual := compiled.visualIdentity;
    var layout := compiled.layoutAndComponents;
    var spec := visual.colorPalette;
    var swatches := PaletteSwatches(spec);
    var labels := if evidence.Some? then evidence.value.layoutPatterns else [];
    var copy := if evidence.Some? then evidence.value.copyObservations else [];
    var tone := ToneOfVoiceSection(w.tone, swatches, copy, compiled.voiceAndCopy, compiled.brandIdentity);
    PaletteSwatchesProps(spec);
    var color := ColorSection(w.color, swatches, spec);
    ColorSectionShape(w.color, swatches, spec);
    CoreSectionsInOrder(DocumentTitle(brand), tone.value,
      SocialMediaSection(w.social, labels, compiled.brandIdentity.designContext, layout.keyComponents, layout.callToActionTreatment),
      VisualSystemSection(w.visual, swatches, evidence, visual, layout),
      CornerRadiusSection(w.corner, evidence, layout),
      IconographySection(w.icons, swatches, visual.imageryStyle.iconography),
      LogoSection(w.logo, swatches, visual.logoUsage),
      color,
      ProductionSections(w.production, compiled.productionNotes, compiled.confidenceNotes));
  }

  // ---------------------------------------------------------------------
  // Sections
  // ---------------------------------------------------------------------

  /** Where the tone section's lines sit: heading, tone line, attributes,
      the casing line, descriptors, a blank line and the principles heading,
      then the principles. */
  lemma ToneLayout(heading: string, tone: string, a: seq<string>, casing: string, d: seq<string>,
                   principles: string, p: seq<string>, dd: seq<string>)
    ensures var b := [heading, tone] + a + [casing] + d + ["", principles] + p + dd;
      && b[0] == heading && b[1] == tone && b[2 + |a|] == casing
      && b[3 + |a| + |d| + 1] == principles
      && forall i :: 0 <= i < |p| ==> b[3 + |a| + |d| + 2 + i] == p[i]
  {
  }

  /** The tone section: the tone line from the palette, the casing line from
      the uppercase share of the copy (mixed for no copy), then after the
      principles heading the principle lines. */
  lemma ToneSectionShape(w: ToneWording, palette: seq<ColorSwatch>, copy: seq<string>, voice: VoiceAndCopy, brand: BrandIdentity)
    requires ToneOfVoiceSection(w, palette, copy, voice, brand).Some?
    ensures var body := ToneOfVoiceSection(w, palette, copy, voice, brand).value.body;
      var a := |AttributeLines(w, brand)|;
      var k := 3 + a + |DescriptorLines(w, voice)| + 2;
      var p := PrincipleLines(w, voice, copy);
      && body[0] == w.heading
      && body[1] == PaletteToneLine(w, palette).value
      && body[2 + a] == CasingLine(w, CasingOf(UppercaseRatioSpec(copy), copy != []))
      && (copy == [] ==> body[2 + a] == w.mixed)
      && body[k - 1] == w.principlesHeading
      && forall i :: 0 <= i < |p| ==> body[k + i] == p[i]
  {
    var tone := PaletteToneLine(w, palette).value;
    var casing := CasingLine(w, CasingOf(UppercaseRatioSpec(copy), copy != []));
    var a, d, p, dd := AttributeLines(w, brand), DescriptorLines(w, voice), PrincipleLines(w, voice, copy), DosAndDonts(w, voice);
    ToneSectionBody(w, palette, copy, voice, brand);
    ToneLayout(w.heading, tone, a, casing, d, w.principlesHeading, p, dd);
    CasingRules(copy);
  }

  lemma ToneSectionBody(w: ToneWording, palette: seq<ColorSwatch>, copy: seq<string>, voice: VoiceAndCopy, brand: BrandIdentity)
    requires ToneOfVoiceSection(w, palette, copy, voice, brand).Some?
    ensures ToneOfVoiceSection(w, palette, copy, voice, brand).value.body
      == [w.heading, PaletteToneLine(w, palette).value] + AttributeLines(w, brand)
         + [CasingLine(w, CasingOf(UppercaseRatioSpec(copy), copy != []))] + DescriptorLines(w, voice)
         + ["", w.principlesHeading] + PrincipleLines(w, voice, copy) + DosAndDonts(w, voice)
  {
  }

  /** Without messaging pillars the first principle is the punchy one exactly
      when the copy averages at most four words a line; with pillars, the
      pillars numbered from one. */
  lemma PrincipleLinesShape(w: ToneWording, voice: VoiceAndCopy, copy: seq<string>)
    ensures var p := PrincipleLines(w, voice, copy);
      && (voice.messagingPillars == [] ==>
            p == [if WordTotal(copy) <= 4 * |copy| then w.punchy else w.clarity, w.evidence, w.partner])
      && (voice.messagingPillars != [] ==>
            && |p| == |voice.messagingPillars|
            && forall i :: 0 <= i < |p| ==> p[i] == NatToString(i + 1) + ". **" + voice.messagingPillars[i] + "**")
  {
    PunchyIff(copy);
  }

  /** The production section is never empty: headed notes, then headed
      confidence entries after a blank line, or the placeholder alone when
      there is neither. */
  lemma ProductionBodyShape(w: ProductionWording, production: seq<string>, confidence: seq<ConfidenceNote>)
    ensures var body := ProductionBody(w, production, confidence);
      var h := if production == [] then 0 else |production| + 2;
      && body != []
      && (|body| == 1 <==> production == [] && confidence == [])
      && (production == [] && confidence == [] ==> body == [w.noOutstanding])
      && (production != [] ==>
            body[0] == w.notesHeading
            && forall i :: 0 <= i < |production| ==> body[1 + i] == "- " + production[i])
      && (production != [] && confidence != [] ==> body[|production| + 1] == "")
      && (confidence != [] ==>
            && |body| == h + 1 + |confidence|
            && body[h] == w.confidenceHeading
            && forall j :: 0 <= j < |confidence| ==> body[h + 1 + j] == ConfidenceLine(confidence[j]))
      && (confidence == [] && production != [] ==> |body| == |production| + 1)
  {
  }

  /** Every row of the colour table, in order: one per specification entry,
      or one per swatch, with the no-colour line only when both are empty. */
  lemma ColorSectionShape(w: ColorWording, palette: seq<ColorSwatch>, paletteSpec: seq<PaletteEntry>)
    ensures var body := ColorSection(w, palette, paletteSpec).body;
      && body[0] == w.heading
      && (paletteSpec != [] ==>
            && |body| == 6 + |paletteSpec|
            && body[1] == w.specHeader && body[2] == w.specRule
            && forall i :: 0 <= i < |paletteSpec| ==> body[3 + i] == SpecRow(paletteSpec[i]))
      && (paletteSpec == [] && palette != [] ==>
            && |body| == 6 + |palette|
            && body[1] == w.swatchHeader && body[2] == w.swatchRule
            && forall i :: 0 <= i < |palette| ==> body[3 + i] == SwatchRow(palette[i]))
      && (paletteSpec == [] && palette == [] <==> |body| == 2)
      && (paletteSpec == [] && palette == [] ==> body[1] == w.noColors)
  {
    if paletteSpec != [] {
      TableLayout(w.heading, w.specHeader, w.specRule, SpecRows(paletteSpec), ColorFooter(w));
    } else if palette != [] {
      TableLayout(w.heading, w.swatchHeader, w.swatchRule, SwatchRows(palette), ColorFooter(w));
    }
  }

  /** Where the lines of a heading, a table header, a rule, the rows and a
      three-line footer sit. */
  lemma TableLayout(heading: string, header: string, rule: string, rows: seq<string>, footer: seq<string>)
    requires |footer| == 3
    ensures var body := [heading, header, rule] + rows + footer;
      && |body| == 6 + |rows|
      && body[0] == heading && body[1] == header && body[2] == rule
      && forall i :: 0 <= i < |rows| ==> body[3 + i] == rows[i]
  {
  }

  /** An empty join is the only one the dash replaces. */
  lemma OrDashNonEmpty(items: seq<string>)
    ensures OrDash(items) != ""
    ensures OrDash(items) == Dash <==> Commas(items) == "" || Commas(items) == Dash
  {
  }

  /** The channel guidance follows the most common orientation: landscape for
      none, and the lines of the orientation seen most often otherwise. */
  lemma SocialChannels(w: SocialWording, labels: seq<string>, designContext: seq<string>, keyComponents: seq<string>, callouts: seq<string>)
    ensures var body := SocialMediaSection(w, labels, designContext, keyComponents, callouts).body;
      && body[0] == w.heading
      && body[1..3] == ChannelLines(w, MostCommonOrientation(labels))
      && (labels == [] ==> body[1..3] == [w.landscapeFirst, w.landscapeSecond])
      && (labels != [] ==> MostCommonOrientation(labels) in labels)
      && (forall x :: x in labels ==> Occurrences(labels, x) <= Occurrences(labels, MostCommonOrientation(labels)))
  {
    MostCommonOrientationProps(labels);
  }

  /** The hotspots line appears exactly when some image with a layout has a
      focal region, and names at most three of them. */
  lemma HotspotsChoice(w: VisualWording, palette: seq<ColorSwatch>, evidence: Option<AggregatedEvidence>, visual: VisualIdentity, layout: LayoutAndComponents)
    ensures var body := VisualSystemSection(w, palette, evidence, visual, layout).body;
      var regions := FocalLabels(evidence);
      && (regions == [] ==> body[1] == w.evenLayout)
      && (regions != [] ==> body[1] == HotspotLine(w, TopLabels(regions, 3))
                             && 0 < |TopLabels(regions, 3)| <= 3)
      && (regions != [] <==> evidence.Some? && exists i :: 0 <= i < |evidence.value.images| && FocalOf(evidence.value.images[i]) != [])
  {
    TopLabelsProps(FocalLabels(evidence), 3);
    FocalLabelsFound(evidence);
  }

  /** Some focal label is collected exactly when some image has one. */
  lemma FocalLabelsFound(evidence: Option<AggregatedEvidence>)
    ensures FocalLabels(evidence) != [] <==>
      evidence.Some? && exists i :: 0 <= i < |evidence.value.images| && FocalOf(evidence.value.images[i]) != []
  {
    var regions := FocalLabels(evidence);
    if evidence.Some? {
      var images := evidence.value.images;
      if regions != [] {
        FlatMapMember(images, FocalOf, regions[0]);
      }
      if exists i :: 0 <= i < |images| && FocalOf(images[i]) != [] {
        var i :| 0 <= i < |images| && FocalOf(images[i]) != [];
        FlatMapHas(images, FocalOf, i, FocalOf(images[i])[0]);
      }
    }
  }

  /** The corner radius tier follows the mean whitespace: standard without
      layouts, soft when every image is at least half white, tight when every
      image is under 30% white. */
  lemma CornerTier(w: CornerWording, evidence: Option<AggregatedEvidence>, layout: LayoutAndComponents)
    ensures var body := CornerRadiusSection(w, evidence, layout).body;
      var levels := WhitespaceLevels(evidence);
      && body[1] == RadiusLine(w, RadiusOf(AverageWhitespace(evidence)))
      && (levels == [] ==> body[1] == w.standard)
      && (levels != [] && (forall i :: 0 <= i < |levels| ==> 0.5 <= levels[i] <= 1.0) ==> body[1] == w.soft)
      && (levels != [] && (forall i :: 0 <= i < |levels| ==> 0.0 <= levels[i] < 0.3) ==> body[1] == w.tight)
  {
    RadiusTiers(evidence);
  }

  /** The icon tint and the logo lockup use the same primary hex code, the
      fallback blue without colours; a secondary tint appears with a second colour. */
  lemma PrimaryTints(w: Wording, palette: seq<ColorSwatch>, iconography: seq<string>, logoUsage: seq<string>)
    ensures var icons := IconographySection(w.icons, palette, iconography).body;
      var logo := LogoSection(w.logo, palette, logoUsage).body;
      && icons[2] == PrimaryTintLine(w.icons, palette)
      && logo[1] == LockupLine(w.logo, palette)
      && (palette == [] ==> PrimaryHex(palette) == FallbackHex)
      && (palette != [] ==> PrimaryHex(palette) == palette[0].hex)
      && (|palette| > 1 <==> |icons| == 8 + (if iconography != [] then 1 else 0))
  {
  }

  // ---------------------------------------------------------------------
  // The wording guidelines.py writes
  // ---------------------------------------------------------------------

  const SourceWording: Wording := Wording(
    ToneWording(
      "### What Defines the Voice",
      "- Palette analysis unavailable; retain neutral authoritative tone.",
      "- Dominant palette leans ",
      "; mirror this energy in written narratives.",
      "- Core attributes surfaced: ",
      "- High uppercase usage; maintain bold, declarative headlines.",
      "- Predominantly sentence case; emphasize conversational clarity.",
      "- Mixed casing observed; adapt tone per channel while staying precise.",
      "- Noted tone descriptors: ",
      "### Key Voice Principles",
      "1. **Punchy Headlines** — Lead with sharp benefit statements.",
      "1. **Clarity First** — Summaries should surface the outcome immediately.",
      "2. **Evidence-backed Claims** — Support impact points with data where available.",
      "3. **Partner Mindset** — Use second-person framing to reinforce collaboration.",
      "- **Do:** ",
      "- **Don't:** "),
    SocialWording(
      "### Channel Focus",
      "- Prioritize Instagram Stories/Reels and mobile-first LinkedIn posts.",
      "- Repurpose vertical cuts for event live coverage on X.",
      "- Square treatments adapt well to Instagram feed and LinkedIn carousels.",
      "- Ensure captions highlight value quickly for mobile consumption.",
      "- Landscape layouts suit webinars, YouTube explainers, and LinkedIn banners.",
      "- Maintain responsive crops for Instagram and short-form platforms.",
      "- Observed design contexts: ",
      "; tailor copy for these audiences.",
      "### Publishing Checklist",
      "- Tag Bynder master accounts to amplify reach.",
      "- Validate stats and claims before post scheduling.",
      "- Secure approvals for any customer visuals or quotes.",
      "- Spotlight key modules: ",
      "- Reinforce CTAs using: "),
    VisualWording(
      "### Datastream Principles",
      "- Layout scans evenly; introduce focal anchors aligned to brand icon nodes.",
      "- Visual weight concentrates around ",
      "; maintain consistent rhythm across assets.",
      "- Anchor hero compositions with ",
      "); deploy secondary hues for supporting datablocks.",
      "- Use ",
      " as a thrive accent within charts, chips, or callouts.",
      "- Grid cues detected: ",
      "### Motion & Composition",
      "- Stack datablocks into coherent streams; avoid fragmented visual noise.",
      "- Apply progressive offsets (25%-75%) to reinforce depth and motion cues.",
      "- Imagery cues: "),
    CornerWording(
      "### Radius Guidance",
      "- Embrace softer 16px-20px radii for hero containers; whitespace supports openness.",
      "- Standard 12px-16px radii keep content structured while preserving flow.",
      "- Use tighter 8px radii on dense modules to maintain precision.",
      "- Datastream datablocks: default to 20% of block height for rounded corners.",
      "- Physical deliverables: scale corner radius to 1.5% of the shortest edge as baseline.",
      "- Interaction cues: "),
    IconWording(
      "### Icon Library",
      "- Leverage Material Symbols Rounded set at optical size 40 for accessibility.",
      "- Primary tint: ",
      " with white fill for contrast.",
      "- Secondary tint: ",
      " for hover states or SMB contexts.",
      "### Usage",
      "- Nest icons within datablocks; reserve standalone usage for favicons or app shortcuts.",
      "- Maintain icon containers at 150%-200% of icon bounding box for breathing room.",
      "- Icon motifs emphasised: "),
    LogoWording(
      "### Logo Lockups",
      "- Primary lockup: symbol + wordmark in ",
      " on white or deep navy.",
      "- Maintain 1x clearspace buffer around the combined lockup.",
      "- Minimum size: 24px height digital, 12mm print.",
      "### Symbol Guidance",
      "- Reserve mono symbol for avatars and favicons where scale is restricted.",
      "- When color is limited, default to black/white paired set.",
      "- Additional notes: "),
    ColorWording(
      "### Palette Overview",
      "| Hex | Names | Usage | Finishes | Notes |",
      "| --- | ----- | ----- | -------- | ----- |",
      "| Hex | Name | Recommended Usage |",
      "| --- | ---- | ----------------- |",
      "- No colors detected; verify source assets and rerun analysis.",
      "- Ensure minimum 4.5:1 contrast for primary copy against backgrounds.",
      "- Assign accent hues to thrive data streams; limit to 20% coverage per layout."),
    ProductionWording(
      "### Production Notes",
      "### Confidence & Follow-ups",
      "- No outstanding notes."))
}
