/** Properties of the concrete probe catalog, proved over the constant.

    Each operation's invariants are proved by small lemmas of its own (its
    keys, its parameter letters, the shape of each setting, its
    conditions), which the catalog-wide lemmas at the end combine. Facts
    about a literal list (that its entries differ) are proved apart from
    the facts that read the list off the constant. */
module CatalogProperties {
  import opened Wrappers
  import opened Distinct
  import opened ObjectMap
  import opened NumericEnum
  import opened SettingSchema
  import opened OperationSchema
  import opened ProbeCatalog

  /** Position `(i, j)` is the `j`-th setting of the `i`-th operation. */
  predicate IsPosition(c: Catalog, i: int, j: int)
  {
    0 <= i < |c| && 0 <= j < |c[i].1.settings|
  }

  /** The setting at position `(i, j)`. */
  function SettingAt(c: Catalog, i: int, j: int): Setting
    requires IsPosition(c, i, j)
  {
    c[i].1.settings[j].1
  }

  /** Every setting of `op` is active among its declared defaults. */
  ghost predicate AllActive(op: ProbeType)
  {
    forall k :: 0 <= k < |op.settings| ==> IsActive(op.settings, op.settings[k].1) == Some(true)
  }

  /** Only settings under the given keys carry a condition, and each such
      condition is on `quick`, expecting it off. */
  ghost predicate ConditionsOnQuickOff(ss: Settings, conditional: seq<string>)
  {
    forall i :: 0 <= i < |ss| && ss[i].1.fields.condition.Some? ==>
      && ss[i].0 in conditional
      && ss[i].1.fields.condition == Some("quick")
      && ss[i].1.fields.conditionValue == Some(false)
  }

  /** Settings without any condition are all active. */
  lemma UnconditionalAllActive(op: ProbeType)
    requires ConditionsOnQuickOff(op.settings, [])
    ensures ConditionsResolve(op.settings)
    ensures AllActive(op)
  {
  }

  /** Settings whose conditions all name the boolean sibling `quick` and
      expect it off are all active while `quick` is off. `quick` itself is
      not conditional, so no condition refers to its own setting. */
  lemma QuickOffAllActive(op: ProbeType, conditional: seq<string>)
    requires ConditionsOnQuickOff(op.settings, conditional)
    requires "quick" !in conditional
    requires var quick: Option<Setting> := Get(op.settings, "quick");
      quick.Some? && quick.value.BooleanSetting? && !quick.value.flag
    ensures ConditionsResolve(op.settings)
    ensures AllActive(op)
  {
  }

  /** The key lists and letter lists the operations declare have no repeats. */
  lemma DeclaredListsDistinct()
    ensures PairwiseDistinct(["diameter", "depth", "overtravel"])
    ensures PairwiseDistinct(["H", "Z", "O"])
    ensures PairwiseDistinct(["diameter", "depth", "surface-clearance", "overtravel"])
    ensures PairwiseDistinct(["H", "Z", "T", "O"])
    ensures PairwiseDistinct(["width", "length", "depth", "surface-clearance", "corner-clearance", "overtravel"])
    ensures PairwiseDistinct(["H", "I", "Z", "T", "C", "O"])
    ensures PairwiseDistinct(["quick", "corner", "width", "length", "depth", "surface-clearance", "corner-clearance", "overtravel"])
    ensures PairwiseDistinct(["Q", "N", "H", "I", "Z", "T", "C", "O"])
    ensures PairwiseDistinct(["T", "C", "O"])
    ensures PairwiseDistinct(["surface", "distance", "overtravel"])
    ensures PairwiseDistinct(["O"])
    ensures PairwiseDistinct(["bore", "boss", "rectanglePocket", "rectangleBlock", "outsideCorner", "viseCorner", "singleSurface"])
    ensures PairwiseDistinct([6500.1, 6501.1, 6502.1, 6503.1, 6508.1, 6520.1, 6510.1])
  {
  }

  // bore

  lemma BoreKeys()
    ensures Keys(Bore.settings) == ["diameter", "depth", "overtravel"]
  {
  }

  lemma BoreLetters()
    ensures ParameterLetters(Bore.settings) == ["H", "Z", "O"]
  {
    var ss := Bore.settings;
    assert LetterOf(ss[0].1) == ["H"];
    assert LetterOf(ss[1].1) == ["Z"];
    assert LetterOf(ss[2].1) == ["O"];
    assert LettersOfFirst(ss, 1) == ["H"];
    assert LettersOfFirst(ss, 2) == ["H", "Z"];
  }

  lemma BoreShapes()
    ensures SettingsWellFormed(Bore.settings)
  {
  }

  lemma BoreConditions()
    ensures ConditionsOnQuickOff(Bore.settings, [])
    ensures ConditionsResolve(Bore.settings)
    ensures AllActive(Bore)
  {
    assert ConditionsOnQuickOff(Bore.settings, []);
    UnconditionalAllActive(Bore);
  }

  /** bore is well-formed, and with its defaults every setting is active. */
  lemma BoreSound()
    ensures WellFormedOperation(Bore) && AllActive(Bore)
  {
    BoreKeys();
    BoreLetters();
    DeclaredListsDistinct();
    LettersDistinctIffParametersDistinct(Bore.settings);
    BoreShapes();
    BoreConditions();
  }

  // boss

  lemma BossKeys()
    ensures Keys(Boss.settings) == ["diameter", "depth", "surface-clearance", "overtravel"]
  {
  }

  lemma BossLetters()
    ensures ParameterLetters(Boss.settings) == ["H", "Z", "T", "O"]
  {
    var ss := Boss.settings;
    assert LetterOf(ss[0].1) == ["H"];
    assert LetterOf(ss[1].1) == ["Z"];
    assert LetterOf(ss[2].1) == ["T"];
    assert LetterOf(ss[3].1) == ["O"];
    assert LettersOfFirst(ss, 1) == ["H"];
    assert LettersOfFirst(ss, 2) == ["H", "Z"];
    assert LettersOfFirst(ss, 3) == ["H", "Z", "T"];
  }

  lemma BossShapes()
    ensures SettingsWellFormed(Boss.settings)
  {
  }

  lemma BossConditions()
    ensures ConditionsOnQuickOff(Boss.settings, [])
    ensures ConditionsResolve(Boss.settings)
    ensures AllActive(Boss)
  {
    assert ConditionsOnQuickOff(Boss.settings, []);
    UnconditionalAllActive(Boss);
  }

  /** boss is well-formed, and with its defaults every setting is active. */
  lemma BossSound()
    ensures WellFormedOperation(Boss) && AllActive(Boss)
  {
    BossKeys();
    BossLetters();
    DeclaredListsDistinct();
    LettersDistinctIffParametersDistinct(Boss.settings);
    BossShapes();
    BossConditions();
  }

  // rectanglePocket

  lemma RectanglePocketKeys()
    ensures Keys(RectanglePocket.settings) == ["width", "length", "depth", "surface-clearance", "corner-clearance", "overtravel"]
  {
  }

  lemma RectanglePocketLetters()
    ensures ParameterLetters(RectanglePocket.settings) == ["H", "I", "Z", "T", "C", "O"]
  {
    var ss := RectanglePocket.settings;
    assert LetterOf(ss[0].1) == ["H"];
    assert LetterOf(ss[1].1) == ["I"];
    assert LetterOf(ss[2].1) == ["Z"];
    assert LetterOf(ss[3].1) == ["T"];
    assert LetterOf(ss[4].1) == ["C"];
    assert LetterOf(ss[5].1) == ["O"];
    assert LettersOfFirst(ss, 1) == ["H"];
    assert LettersOfFirst(ss, 2) == ["H", "I"];
    assert LettersOfFirst(ss, 3) == ["H", "I", "Z"];
    assert LettersOfFirst(ss, 4) == ["H", "I", "Z", "T"];
    assert LettersOfFirst(ss, 5) == ["H", "I", "Z", "T", "C"];
  }

  lemma RectanglePocketShapes()
    ensures SettingsWellFormed(RectanglePocket.settings)
  {
  }

  lemma RectanglePocketConditions()
    ensures ConditionsOnQuickOff(RectanglePocket.settings, [])
    ensures ConditionsResolve(RectanglePocket.settings)
    ensures AllActive(RectanglePocket)
  {
    assert ConditionsOnQuickOff(RectanglePocket.settings, []);
    UnconditionalAllActive(RectanglePocket);
  }

  /** rectanglePocket is well-formed, and with its defaults every setting is active. */
  lemma RectanglePocketSound()
    ensures WellFormedOperation(RectanglePocket) && AllActive(RectanglePocket)
  {
    RectanglePocketKeys();
    RectanglePocketLetters();
    DeclaredListsDistinct();
    LettersDistinctIffParametersDistinct(RectanglePocket.settings);
    RectanglePocketShapes();
    RectanglePocketConditions();
  }

  // rectangleBlock

  lemma RectangleBlockKeys()
    ensures Keys(RectangleBlock.settings) == ["width", "length", "depth", "surface-clearance", "corner-clearance", "overtravel"]
  {
  }

  lemma RectangleBlockLetters()
    ensures ParameterLetters(RectangleBlock.settings) == ["H", "I", "Z", "T", "C", "O"]
  {
    var ss := RectangleBlock.settings;
    assert LetterOf(ss[0].1) == ["H"];
    assert LetterOf(ss[1].1) == ["I"];
    assert LetterOf(ss[2].1) == ["Z"];
    assert LetterOf(ss[3].1) == ["T"];
    assert LetterOf(ss[4].1) == ["C"];
    assert LetterOf(ss[5].1) == ["O"];
    assert LettersOfFirst(ss, 1) == ["H"];
    assert LettersOfFirst(ss, 2) == ["H", "I"];
    assert LettersOfFirst(ss, 3) == ["H", "I", "Z"];
    assert LettersOfFirst(ss, 4) == ["H", "I", "Z", "T"];
    assert LettersOfFirst(ss, 5) == ["H", "I", "Z", "T", "C"];
  }

  lemma RectangleBlockShapes()
    ensures SettingsWellFormed(RectangleBlock.settings)
  {
  }

  lemma RectangleBlockConditions()
    ensures ConditionsOnQuickOff(RectangleBlock.settings, [])
    ensures ConditionsResolve(RectangleBlock.settings)
    ensures AllActive(RectangleBlock)
  {
    assert ConditionsOnQuickOff(RectangleBlock.settings, []);
    UnconditionalAllActive(RectangleBlock);
  }

  /** rectangleBlock is well-formed, and with its defaults every setting is active. */
  lemma RectangleBlockSound()
    ensures WellFormedOperation(RectangleBlock) && AllActive(RectangleBlock)
  {
    RectangleBlockKeys();
    RectangleBlockLetters();
    DeclaredListsDistinct();
    LettersDistinctIffParametersDistinct(RectangleBlock.settings);
    RectangleBlockShapes();
    RectangleBlockConditions();
  }

  // outsideCorner

  lemma OutsideCornerKeys()
    ensures Keys(OutsideCorner.settings) == ["quick", "corner", "width", "length", "depth", "surface-clearance", "corner-clearance", "overtravel"]
  {
  }

  lemma OutsideCornerLetters()
    ensures ParameterLetters(OutsideCorner.settings) == ["Q", "N", "H", "I", "Z", "T", "C", "O"]
  {
    var ss := OutsideCorner.settings;
    assert LetterOf(ss[0].1) == ["Q"];
    assert LetterOf(ss[1].1) == ["N"];
    assert LetterOf(ss[2].1) == ["H"];
    assert LetterOf(ss[3].1) == ["I"];
    assert LetterOf(ss[4].1) == ["Z"];
    assert LetterOf(ss[5].1) == ["T"];
    assert LetterOf(ss[6].1) == ["C"];
    assert LetterOf(ss[7].1) == ["O"];
    assert LettersOfFirst(ss, 1) == ["Q"];
    assert LettersOfFirst(ss, 2) == ["Q", "N"];
    assert LettersOfFirst(ss, 3) == ["Q", "N", "H"];
    assert LettersOfFirst(ss, 4) == ["Q", "N", "H", "I"];
    assert LettersOfFirst(ss, 5) == ["Q", "N", "H", "I", "Z"];
    assert LettersOfFirst(ss, 6) == ["Q", "N", "H", "I", "Z", "T"];
    assert LettersOfFirst(ss, 7) == ["Q", "N", "H", "I", "Z", "T", "C"];
  }

  lemma OutsideCornerShapes()
    ensures SettingsWellFormed(OutsideCorner.settings)
  {
  }

  lemma OutsideCornerConditions()
    ensures ConditionsOnQuickOff(OutsideCorner.settings, ["width", "length"])
    ensures ConditionsResolve(OutsideCorner.settings)
    ensures AllActive(OutsideCorner)
  {
    assert ConditionsOnQuickOff(OutsideCorner.settings, ["width", "length"]);
    assert Get(OutsideCorner.settings, "quick") == Some(OutsideCorner.settings[0].1);
    QuickOffAllActive(OutsideCorner, ["width", "length"]);
  }

  /** outsideCorner is well-formed, and with its defaults every setting is active. */
  lemma OutsideCornerSound()
    ensures WellFormedOperation(OutsideCorner) && AllActive(OutsideCorner)
  {
    OutsideCornerKeys();
    OutsideCornerLetters();
    DeclaredListsDistinct();
    LettersDistinctIffParametersDistinct(OutsideCorner.settings);
    OutsideCornerShapes();
    OutsideCornerConditions();
  }

  // viseCorner

  lemma ViseCornerKeys()
    ensures Keys(ViseCorner.settings) == ["quick", "corner", "width", "length", "depth", "surface-clearance", "corner-clearance", "overtravel"]
  {
  }

  lemma ViseCornerLetters()
    ensures ParameterLetters(ViseCorner.settings) == ["T", "C", "O"]
  {
    var ss := ViseCorner.settings;
    assert LetterOf(ss[0].1) == [];
    assert LetterOf(ss[1].1) == [];
    assert LetterOf(ss[2].1) == [];
    assert LetterOf(ss[3].1) == [];
    assert LetterOf(ss[4].1) == [];
    assert LetterOf(ss[5].1) == ["T"];
    assert LetterOf(ss[6].1) == ["C"];
    assert LetterOf(ss[7].1) == ["O"];
    assert LettersOfFirst(ss, 1) == [];
    assert LettersOfFirst(ss, 2) == [];
    assert LettersOfFirst(ss, 3) == [];
    assert LettersOfFirst(ss, 4) == [];
    assert LettersOfFirst(ss, 5) == [];
    assert LettersOfFirst(ss, 6) == ["T"];
    assert LettersOfFirst(ss, 7) == ["T", "C"];
  }

  lemma ViseCornerShapes()
    ensures SettingsWellFormed(ViseCorner.settings)
  {
  }

  lemma ViseCornerConditions()
    ensures ConditionsOnQuickOff(ViseCorner.settings, ["width", "length"])
    ensures ConditionsResolve(ViseCorner.settings)
    ensures AllActive(ViseCorner)
  {
    assert ConditionsOnQuickOff(ViseCorner.settings, ["width", "length"]);
    assert Get(ViseCorner.settings, "quick") == Some(ViseCorner.settings[0].1);
    QuickOffAllActive(ViseCorner, ["width", "length"]);
  }

  /** viseCorner is well-formed, and with its defaults every setting is active. */
  lemma ViseCornerSound()
    ensures WellFormedOperation(ViseCorner) && AllActive(ViseCorner)
  {
    ViseCornerKeys();
    ViseCornerLetters();
    DeclaredListsDistinct();
    LettersDistinctIffParametersDistinct(ViseCorner.settings);
    ViseCornerShapes();
    ViseCornerConditions();
  }

  // singleSurface

  lemma SingleSurfaceKeys()
    ensures Keys(SingleSurface.settings) == ["surface", "distance", "overtravel"]
  {
  }

  lemma SingleSurfaceLetters()
    ensures ParameterLetters(SingleSurface.settings) == ["O"]
  {
    var ss := SingleSurface.settings;
    assert LetterOf(ss[0].1) == [];
    assert LetterOf(ss[1].1) == [];
    assert LetterOf(ss[2].1) == ["O"];
    assert LettersOfFirst(ss, 1) == [];
    assert LettersOfFirst(ss, 2) == [];
  }

  lemma SingleSurfaceShapes()
    ensures SettingsWellFormed(SingleSurface.settings)
  {
  }

  lemma SingleSurfaceConditions()
    ensures ConditionsOnQuickOff(SingleSurface.settings, [])
    ensures ConditionsResolve(SingleSurface.settings)
    ensures AllActive(SingleSurface)
  {
    assert ConditionsOnQuickOff(SingleSurface.settings, []);
    UnconditionalAllActive(SingleSurface);
  }

  /** singleSurface is well-formed, and with its defaults every setting is active. */
  lemma SingleSurfaceSound()
    ensures WellFormedOperation(SingleSurface) && AllActive(SingleSurface)
  {
    SingleSurfaceKeys();
    SingleSurfaceLetters();
    DeclaredListsDistinct();
    LettersDistinctIffParametersDistinct(SingleSurface.settings);
    SingleSurfaceShapes();
    SingleSurfaceConditions();
  }

  // The whole catalog

  /** The seven operations, in declaration order. */
  lemma CatalogEntries()
    ensures |ProbeTypes| == 7
    ensures ProbeTypes[0].1 == Bore && ProbeTypes[1].1 == Boss
    ensures ProbeTypes[2].1 == RectanglePocket && ProbeTypes[3].1 == RectangleBlock
    ensures ProbeTypes[4].1 == OutsideCorner && ProbeTypes[5].1 == ViseCorner
    ensures ProbeTypes[6].1 == SingleSurface
  {
  }

  /** Each operation of the catalog is well-formed and, with its defaults,
      has all its settings active. */
  lemma OperationSound(i: nat)
    requires i < |ProbeTypes|
    ensures WellFormedOperation(ProbeTypes[i].1)
    ensures AllActive(ProbeTypes[i].1)
  {
    CatalogEntries();
    match i
    case 0 => BoreSound();
    case 1 => BossSound();
    case 2 => RectanglePocketSound();
    case 3 => RectangleBlockSound();
    case 4 => OutsideCornerSound();
    case 5 => ViseCornerSound();
    case 6 => SingleSurfaceSound();
  }

  /** The operation keys and macro codes, in declaration order. */
  lemma CatalogKeysAndCodes()
    ensures Keys(ProbeTypes) == ["bore", "boss", "rectanglePocket", "rectangleBlock", "outsideCorner", "viseCorner", "singleSurface"]
    ensures Codes(ProbeTypes) == [6500.1, 6501.1, 6502.1, 6503.1, 6508.1, 6520.1, 6510.1]
  {
  }

  /** The seven macro codes are pairwise distinct. */
  lemma CodesDistinct()
    ensures PairwiseDistinct(Codes(ProbeTypes))
  {
    CatalogKeysAndCodes();
    DeclaredListsDistinct();
  }

  /** The catalog meets every invariant of `WellFormedCatalog`. */
  lemma CatalogWellFormed()
    ensures WellFormedCatalog(ProbeTypes)
  {
    CatalogKeysAndCodes();
    DeclaredListsDistinct();
    forall i | 0 <= i < |ProbeTypes|
      ensures WellFormedOperation(ProbeTypes[i].1)
    {
      OperationSound(i);
    }
  }

  /** Every number setting of the catalog has its default within
      `min`/`max` and a positive `step`, and so does every shared entry. */
  lemma NumberDefaultsInRange()
    ensures forall i :: 0 <= i < |ValueSettings| ==>
      InRange(ValueSettings[i].1) && ValueSettings[i].1.fields.step.value > 0.0
    ensures forall i, j | IsPosition(ProbeTypes, i, j) && SettingAt(ProbeTypes, i, j).NumberSetting? ::
      && InRange(SettingAt(ProbeTypes, i, j))
      && SettingAt(ProbeTypes, i, j).fields.step.Some?
      && SettingAt(ProbeTypes, i, j).fields.step.value > 0.0
  {
    forall i, j | IsPosition(ProbeTypes, i, j)
      ensures WellFormedSetting(SettingAt(ProbeTypes, i, j))
    {
      OperationSound(i);
    }
  }

  /** Every enum setting of the catalog has at least one option and a
      default that is a whole, zero-based index into them. */
  lemma EnumDefaultsValid()
    ensures forall i, j | IsPosition(ProbeTypes, i, j) && SettingAt(ProbeTypes, i, j).EnumSetting? ::
      && SettingAt(ProbeTypes, i, j).fields.options.Some?
      && |SettingAt(ProbeTypes, i, j).fields.options.value| >= 1
      && ValidIndex(SettingAt(ProbeTypes, i, j))
  {
    forall i, j | IsPosition(ProbeTypes, i, j)
      ensures WellFormedSetting(SettingAt(ProbeTypes, i, j))
    {
      OperationSound(i);
    }
  }

  /** Within each operation no two settings feed the same parameter letter. */
  lemma ParameterLettersUnique()
    ensures forall i :: 0 <= i < |ProbeTypes| ==> ParametersDistinct(ProbeTypes[i].1.settings)
  {
    forall i | 0 <= i < |ProbeTypes|
      ensures ParametersDistinct(ProbeTypes[i].1.settings)
    {
      OperationSound(i);
    }
  }

  /** The only conditional settings are width and length of the two corner
      operations; each is shown while the boolean sibling `quick` is off. */
  lemma ConditionsNameBooleanSiblings()
    ensures forall i, j | IsPosition(ProbeTypes, i, j) && SettingAt(ProbeTypes, i, j).fields.condition.Some? ::
      && ProbeTypes[i].0 in ["outsideCorner", "viseCorner"]
      && ProbeTypes[i].1.settings[j].0 in ["width", "length"]
      && SettingAt(ProbeTypes, i, j).fields.condition == Some("quick")
      && SettingAt(ProbeTypes, i, j).fields.conditionValue == Some(false)
      && ConditionResolves(ProbeTypes[i].1.settings, SettingAt(ProbeTypes, i, j))
  {
    BoreConditions();
    BossConditions();
    RectanglePocketConditions();
    RectangleBlockConditions();
    OutsideCornerConditions();
    ViseCornerConditions();
    SingleSurfaceConditions();
  }

  /** With its declared defaults (quick mode off) every setting of every
      operation is active. */
  lemma DefaultsAllActive()
    ensures forall i, j | IsPosition(ProbeTypes, i, j) ::
      IsActive(ProbeTypes[i].1.settings, SettingAt(ProbeTypes, i, j)) == Some(true)
  {
    forall i, j | IsPosition(ProbeTypes, i, j)
      ensures IsActive(ProbeTypes[i].1.settings, SettingAt(ProbeTypes, i, j)) == Some(true)
    {
      OperationSound(i);
    }
  }

  /** In either corner operation, for any current values with unique keys,
      width and length are active exactly when the `quick` flag is off. */
  lemma SideLengthsFollowQuickMode(op: ProbeType, ss: Settings, q: nat, k: nat)
    requires op == OutsideCorner || op == ViseCorner
    requires UniqueKeys(ss)
    requires q < |ss| && ss[q].0 == "quick" && ss[q].1.BooleanSetting?
    requires k == 2 || k == 3
    ensures IsActive(ss, op.settings[k].1) == Some(!ss[q].1.flag)
  {
    ActiveIffConditionMet(ss, op.settings[k].1, q);
  }

  /** The corner option lists are the `cornerNames` members and the surface
      option list the `surfaceNames` members, in enum order, so an option's
      index is its enum number. */
  lemma OptionListsMatchEnums()
    ensures OutsideCorner.settings[1].1.fields.options == Some(CornerNames)
    ensures ViseCorner.settings[1].1.fields.options == Some(CornerNames)
    ensures SingleSurface.settings[0].1.fields.options == Some(SurfaceNames)
    ensures forall n :: 0 <= n < |CornerNames| ==> ValueOf(CornerNames, CornerNames[n]) == Some(n)
    ensures forall n :: 0 <= n < |SurfaceNames| ==> ValueOf(SurfaceNames, SurfaceNames[n]) == Some(n)
    ensures Selected(OutsideCorner.settings[1].1) == Some("Front Left")
    ensures Selected(SingleSurface.settings[0].1) == Some("Left")
  {
    forall n | 0 <= n < |CornerNames| ensures ValueOf(CornerNames, CornerNames[n]) == Some(n) {
      EnumRoundTrip(CornerNames, n);
    }
    forall n | 0 <= n < |SurfaceNames| ensures ValueOf(SurfaceNames, SurfaceNames[n]) == Some(n) {
      EnumRoundTrip(SurfaceNames, n);
    }
  }

  /** Wherever an operation declares overtravel, surface clearance or corner
      clearance, the entry is the shared `valueSettings` one. */
  lemma SharedEntriesIdentical()
    ensures forall i, j | IsPosition(ProbeTypes, i, j) && ProbeTypes[i].1.settings[j].0 in Keys(ValueSettings) ::
      Get(ValueSettings, ProbeTypes[i].1.settings[j].0) == Some(SettingAt(ProbeTypes, i, j))
  {
  }

  /** Reading the catalog under an operation's key finds that operation. */
  lemma GetKnownOperations(i: nat)
    requires i < |ProbeTypes|
    ensures Get(ProbeTypes, ProbeTypes[i].0) == Some(ProbeTypes[i].1)
  {
    CatalogKeysAndCodes();
    DeclaredListsDistinct();
    GetDeclared(ProbeTypes, i);
  }

  /** Reading the catalog finds an operation exactly under the seven
      declared keys; any other key reads as absent. */
  lemma GetOperation(key: string)
    ensures Get(ProbeTypes, key).Some? <==>
      key in ["bore", "boss", "rectanglePocket", "rectangleBlock", "outsideCorner", "viseCorner", "singleSurface"]
  {
    CatalogKeysAndCodes();
  }
}
