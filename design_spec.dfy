// The consolidated design specification that `aggregate_guidelines` produces
// (analyzer.py, openai_integration.py) and `build_document_from_spec`
// (guidelines.py) reads. The dictionaries of the source become records; a
// key the reader finds absent is an empty list here. The fields a reader
// looks up with a default of its own (`hex`, `image`, `note`) are options.

module DesignSpec {
  import opened Collections

  datatype BrandIdentity = BrandIdentity(
    brandNames: seq<string>,
    designContext: seq<string>,
    coreAttributes: seq<string>,
    taglines: seq<string>)

  datatype PaletteEntry = PaletteEntry(
    hex: Option<string>,
    names: seq<string>,
    usageNotes: seq<string>,
    finishes: seq<string>,
    additionalNotes: seq<string>,
    sourceImages: seq<string>)

  datatype TypographyEntry = TypographyEntry(
    family: string,
    styles: seq<string>,
    usage: seq<string>,
    sizeRanges: seq<string>,
    tracking: seq<string>,
    notes: seq<string>,
    sourceImages: seq<string>)

  datatype ImageryStyle = ImageryStyle(
    photography: seq<string>,
    illustration: seq<string>,
    iconography: seq<string>,
    texturesAndPatterns: seq<string>)

  datatype VisualIdentity = VisualIdentity(
    colorPalette: seq<PaletteEntry>,
    typography: seq<TypographyEntry>,
    logoUsage: seq<string>,
    imageryStyle: ImageryStyle)

  datatype LayoutAndComponents = LayoutAndComponents(
    gridAndSpacing: seq<string>,
    keyComponents: seq<string>,
    callToActionTreatment: seq<string>,
    interactionNotes: seq<string>)

  datatype VoiceAndCopy = VoiceAndCopy(
    toneDescriptors: seq<string>,
    messagingPillars: seq<string>,
    dos: seq<string>,
    donts: seq<string>)

  datatype ConfidenceNote = ConfidenceNote(image: Option<string>, note: Option<string>)

  /** The `compiled` dictionary. */
  datatype Compiled = Compiled(
    brandIdentity: BrandIdentity,
    visualIdentity: VisualIdentity,
    layoutAndComponents: LayoutAndComponents,
    voiceAndCopy: VoiceAndCopy,
    productionNotes: seq<string>,
    confidenceNotes: seq<ConfidenceNote>)

  const EmptyBrand := BrandIdentity([], [], [], [])
  const EmptyImagery := ImageryStyle([], [], [], [])
  const EmptyVisual := VisualIdentity([], [], [], EmptyImagery)
  const EmptyLayout := LayoutAndComponents([], [], [], [])
  const EmptyVoice := VoiceAndCopy([], [], [], [])

  /** `design_spec.get("compiled", {})` for a spec without that key. */
  const EmptyCompiled := Compiled(EmptyBrand, EmptyVisual, EmptyLayout, EmptyVoice, [], [])

  /** The imagery fields with their keys, in the order the dictionary lists them. */
  function ImageryFields(s: ImageryStyle): seq<(string, seq<string>)> {
    [("photography", s.photography), ("illustration", s.illustration),
     ("iconography", s.iconography), ("textures_and_patterns", s.texturesAndPatterns)]
  }
}
