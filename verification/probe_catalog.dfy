/** The static probe-operation catalog: the three shared `valueSettings`
    entries, the `cornerNames` and `surfaceNames` enums, and the seven
    operations of the default export, each with its macro code and its
    settings in declaration order. Every value a setting holds here is its
    default. */
module ProbeCatalog {
  import opened Wrappers
  import opened SettingSchema
  import opened OperationSchema

  /** A number setting with both bounds and a step. */
  function Number(title: string, parameter: Option<string>, value: real, min: real, max: real, step: real): Setting
  {
    NumberSetting(Fields(title, parameter, Some(min), Some(max), Some(step), None, None, None), value)
  }

  /** A boolean setting. */
  function Boolean(title: string, parameter: Option<string>, value: bool): Setting
  {
    BooleanSetting(Fields(title, parameter, None, None, None, None, None, None), value)
  }

  /** An enum setting over the given option labels. */
  function Choice(title: string, parameter: Option<string>, value: real, options: seq<string>): Setting
  {
    EnumSetting(Fields(title, parameter, None, None, None, Some(options), None, None), value)
  }

  /** `s` shown only while the sibling `key` holds the flag `expected`. */
  function Conditional(s: Setting, key: string, expected: bool): Setting
  {
    s.(fields := s.fields.(condition := Some(key), conditionValue := Some(expected)))
  }

  const DsOvertravel: string := "overtravel"
  const DsSurfaceClearance: string := "surface-clearance"
  const DsCornerClearance: string := "corner-clearance"

  const OvertravelSetting: Setting := Number("Overtravel", Some("O"), 2.0, 1.0, 20.0, 0.1)
  const SurfaceClearanceSetting: Setting := Number("Surface Clearance", Some("T"), 10.0, 2.0, 50.0, 0.1)
  const CornerClearanceSetting: Setting := Number("Corner Clearance", Some("C"), 5.0, 1.0, 50.0, 0.1)

  /** `valueSettings`: the entries several operations share. */
  const ValueSettings: Settings := [
    (DsOvertravel, OvertravelSetting),
    (DsSurfaceClearance, SurfaceClearanceSetting),
    (DsCornerClearance, CornerClearanceSetting)
  ]

  /** The members of the `cornerNames` enum in declaration order. */
  const CornerNames: seq<string> := ["Front Left", "Front Right", "Back Right", "Back Left"]

  /** The members of the `surfaceNames` enum in declaration order. */
  const SurfaceNames: seq<string> := ["Left", "Right", "Front", "Back", "Top"]

  const Bore: ProbeType := ProbeType("Bore", 6500.1, [
    ("diameter", Number("Diameter", Some("H"), 10.0, 1.0, 100.0, 0.1)),
    ("depth", Number("Depth (from starting position)", Some("Z"), 0.0, 0.0, 100.0, 0.1)),
    (DsOvertravel, OvertravelSetting)
  ])

  const Boss: ProbeType := ProbeType("Boss", 6501.1, [
    ("diameter", Number("Diameter", Some("H"), 10.0, 1.0, 100.0, 0.1)),
    ("depth", Number("Depth (from starting position)", Some("Z"), 0.0, 0.0, 100.0, 0.1)),
    (DsSurfaceClearance, SurfaceClearanceSetting),
    (DsOvertravel, OvertravelSetting)
  ])

  const RectanglePocket: ProbeType := ProbeType("Rectangle Pocket", 6502.1, [
    ("width", Number("Width (on X axis)", Some("H"), 10.0, 0.0, 300.0, 0.1)),
    ("length", Number("Length (on Y axis)", Some("I"), 10.0, 0.0, 300.0, 0.1)),
    ("depth", Number("Depth (from starting position)", Some("Z"), 0.0, 0.0, 100.0, 0.1)),
    (DsSurfaceClearance, SurfaceClearanceSetting),
    (DsCornerClearance, CornerClearanceSetting),
    (DsOvertravel, OvertravelSetting)
  ])

  const RectangleBlock: ProbeType := ProbeType("Rectangle Block", 6503.1, [
    ("width", Number("Width (on X axis)", Some("H"), 10.0, 0.0, 300.0, 0.1)),
    ("length", Number("Length (on Y axis)", Some("I"), 10.0, 0.0, 300.0, 0.1)),
    ("depth", Number("Depth (from starting position)", Some("Z"), 5.0, 0.0, 100.0, 0.1)),
    (DsSurfaceClearance, SurfaceClearanceSetting),
    (DsCornerClearance, CornerClearanceSetting),
    (DsOvertravel, OvertravelSetting)
  ])

  const OutsideCorner: ProbeType := ProbeType("Outside Corner", 6508.1, [
    ("quick", Boolean("Quick Mode", Some("Q"), false)),
    ("corner", Choice("Corner", Some("N"), 0.0, ["Front Left", "Front Right", "Back Right", "Back Left"])),
    ("width", Conditional(Number("Width", Some("H"), 10.0, 0.0, 300.0, 0.1), "quick", false)),
    ("length", Conditional(Number("Length", Some("I"), 10.0, 0.0, 300.0, 0.1), "quick", false)),
    ("depth", Number("Depth (from starting position)", Some("Z"), 0.0, 0.0, 100.0, 0.1)),
    (DsSurfaceClearance, SurfaceClearanceSetting),
    (DsCornerClearance, CornerClearanceSetting),
    (DsOvertravel, OvertravelSetting)
  ])

  /** Unlike outsideCorner, only the shared entries carry parameter letters. */
  const ViseCorner: ProbeType := ProbeType("Vise Corner", 6520.1, [
    ("quick", Boolean("Quick Mode", None, false)),
    ("corner", Choice("Corner", None, 0.0, ["Front Left", "Front Right", "Back Right", "Back Left"])),
    ("width", Conditional(Number("Width", None, 10.0, 0.0, 300.0, 0.1), "quick", false)),
    ("length", Conditional(Number("Length", None, 10.0, 0.0, 300.0, 0.1), "quick", false)),
    ("depth", Number("Depth (from top surface)", None, 2.0, 0.0, 100.0, 0.1)),
    (DsSurfaceClearance, SurfaceClearanceSetting),
    (DsCornerClearance, CornerClearanceSetting),
    (DsOvertravel, OvertravelSetting)
  ])

  const SingleSurface: ProbeType := ProbeType("Single Surface", 6510.1, [
    ("surface", Choice("Surface", None, 0.0, ["Left", "Right", "Front", "Back", "Top"])),
    ("distance", Number("Distance", None, 10.0, 1.0, 100.0, 0.1)),
    (DsOvertravel, OvertravelSetting)
  ])

  /** The default export: every operation under its key. */
  const ProbeTypes: Catalog := [
    ("bore", Bore),
    ("boss", Boss),
    ("rectanglePocket", RectanglePocket),
    ("rectangleBlock", RectangleBlock),
    ("outsideCorner", OutsideCorner),
    ("viseCorner", ViseCorner),
    ("singleSurface", SingleSurface)
  ]
}
