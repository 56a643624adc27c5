# Probe operation catalog: a Dafny model

This project models the probe-operation schema and the static catalog of the
MillenniumOS UI (`src/types/Probe.ts`). The catalog defines seven CNC
touch-probe operations: bore, boss, rectangle pocket, rectangle block,
outside corner, vise corner and single surface. Each operation has a
decimal macro `code` and an ordered map of user-editable settings. A setting
is a tagged union on its `type` field:

- a `boolean` setting's `value` is a flag;
- a `number` setting's `value` is a magnitude with `min`/`max` bounds and a `step`;
- an `enum` setting's `value` is a zero-based index into `options`.

A setting may name the macro `parameter` letter it feeds. It may also be
shown only while a boolean sibling holds a given flag, through its
`condition`/`conditionValue` pair.

The model has these parts:

- `SettingSchema` (`setting_schema.dfy`) has the setting shapes.
  - `ProbeSetting` is the base record, whose `type` may be any string.
  - `Setting` is `ProbeSettingAll`, the sum of the three refinements.
  - It also holds the three type guards, and the vocabulary for defaults: `InRange`, `ValidIndex`, `Selected`, `WellFormedSetting`.
- `ObjectMap` (`object_map.dfy`) models a JavaScript object literal as its properties in insertion order. It defines property reading (`Get`) and key uniqueness.
- `NumericEnum` (`numeric_enum.dfy`) models a TypeScript numeric enum such as `cornerNames`. It has forward and reverse maps.
- `OperationSchema` (`operation_schema.dfy`) models `ProbeType` and `ProbeTypes`.
  - `ParameterLetters` lists the parameter letters the settings declare.
  - `IsActive` is the meaning of `condition`/`conditionValue`.
  - `WellFormedOperation` and `WellFormedCatalog` are the invariants of an operation and of the catalog.
- `ProbeCatalog` (`probe_catalog.dfy`) is the catalog itself, as constants. It holds the shared `valueSettings` entries, the `cornerNames` and `surfaceNames` member lists, and the seven operations.
- `CatalogProperties` (`catalog_properties.dfy`) holds the lemmas that prove the invariants of the constant catalog.
- `Wrappers` (`wrappers.dfy`) and `Distinct` (`distinct.dfy`) are small helpers: `Option`, and pairwise distinctness of a sequence.

The source contains no routine that validates a setting value, derives a
macro's parameter list or reports an error. It declares types, three guards and constant data.
So the model is built the same way: the guards and the catalog as written,
plus predicates and lemmas that state what the declarations satisfy.
`IsActive`, `InRange`, `ValidIndex`, `Selected` and `ParameterLetters` give
the meaning of declared fields (for example, `condition` and
`conditionValue` at `src/types/Probe.ts:72-73`). No function in the source
computes them.

Three readings of the source shape the model:

- `conditionValue` is typed `boolean` (`src/types/Probe.ts:73`). So the
  model requires a `condition` to name a boolean sibling.
- Reading the catalog or a `settings` object by key is modelled as
  JavaScript own-property access, which yields `undefined` (`None`) for a
  key the object does not declare.
- A comment at `src/types/Probe.ts:290` lists outsideCorner's macro
  parameters as Q H I N. The declared order of its settings is Q N H I Z T
  C O, and the model states only the declared order.

## Model

| member | source | states |
|---|---|---|
| SettingSchema.AtMostOneGuard | src/types/Probe.ts:97-107 | At most one of `isBooleanSetting`, `isNumberSetting`, `isEnumSetting` accepts a `ProbeSetting`. One accepts exactly when `type` is one of the three literals `boolean`, `number`, `enum`; any other `type` string is accepted by none. |
| SettingSchema.GuardNamesVariant | src/types/Probe.ts:76-107 | For a `ProbeSettingAll`, exactly one guard holds, and it is the guard named after the value's own refinement. So each guard narrows to its refinement soundly and completely. |
| SettingSchema.Selected | src/types/Probe.ts:71-89 | An enum setting's value selects an option exactly when it is a whole number with 0 <= value < number of options. The label it selects is `options[value]`. |
| SettingSchema.SelectedRoundTrip | src/types/Probe.ts:71-89 | When the option labels are distinct, the selected label's position in `options` is the setting's value, so label and index determine each other. |
| ObjectMap.Get | src/types/Probe.ts:93-95 | Reading a key of a settings object gives `undefined` exactly when no own property has that key. Otherwise it gives a value declared under that key. |
| ObjectMap.GetDeclared | src/types/Probe.ts:93-95 | When keys are unique, reading a property gives the value declared under it, at whatever position it was declared. |
| NumericEnum.ValueOf | src/types/Probe.ts:46-59 | The forward map of a numeric enum (`cornerNames['Back Right']`). Among the member-name keys, it is defined exactly for member names and gives the position of the member with that name. TypeScript rejects repeated member names, so that position is unique. |
| NumericEnum.NameOf | src/types/Probe.ts:46-59 | The reverse map of a numeric enum (`cornerNames[2]`). It is defined exactly for numbers 0 to (member count - 1), and what it gives is always a member name. |
| NumericEnum.EnumRoundTrip | src/types/Probe.ts:46-59 | When member names are distinct, mapping a member's name to its number gives its position. Mapping that number back gives the name. |
| OperationSchema.LettersOfFirstMembers | src/types/Probe.ts:65-65 | A letter is in the letter list of the first n settings exactly when one of those settings declares it as its `parameter`. |
| OperationSchema.ParameterLettersMembers | src/types/Probe.ts:65-65 | A letter is in an operation's letter list exactly when some setting declares it as its `parameter`. Settings without a `parameter` add nothing. |
| OperationSchema.LettersOfFirstDistinct | src/types/Probe.ts:65-65 | The letter list of the first n settings has no repeats exactly when no two of those settings declare the same `parameter`. |
| OperationSchema.LettersDistinctIffParametersDistinct | src/types/Probe.ts:65-65 | An operation's letter list has no repeats exactly when no two of its settings feed the same macro parameter. |
| OperationSchema.IsActive | src/types/Probe.ts:72-73 | With no `condition`, a setting is active. Otherwise it is active exactly when the sibling named by `condition` is boolean and its value equals `conditionValue`. The result is undecided when that sibling is missing or not boolean, or when `conditionValue` is absent. |
| OperationSchema.ActiveIffConditionMet | src/types/Probe.ts:72-73 | Among settings with unique keys, a conditional setting is active exactly when its named boolean sibling's flag equals `conditionValue`. |
| OperationSchema.ActivityDecided | src/types/Probe.ts:72-73 | In a well-formed operation, whether each setting is active is always decided. |
| CatalogProperties.BoreKeys | src/types/Probe.ts:122-155 | bore declares its settings under these keys, in this order: diameter, depth, overtravel. |
| CatalogProperties.BoreLetters | src/types/Probe.ts:122-155 | The parameter letters bore declares, in declaration order: H Z O. |
| CatalogProperties.BoreShapes | src/types/Probe.ts:122-155 | Every setting of bore is well-formed. Each number default lies within `min`/`max` and has `step` > 0. Each enum has options and a default index into them. `condition` and `conditionValue` come together. |
| CatalogProperties.BoreConditions | src/types/Probe.ts:122-155 | No setting of bore is conditional. Every setting is therefore active. |
| CatalogProperties.BoreSound | src/types/Probe.ts:122-155 | bore meets all the invariants of an operation: unique keys, distinct parameter letters, well-formed settings and resolving conditions. With its defaults, all its settings are active. |
| CatalogProperties.BossKeys | src/types/Probe.ts:156-189 | boss declares its settings under these keys, in this order: diameter, depth, surface-clearance, overtravel. |
| CatalogProperties.BossLetters | src/types/Probe.ts:156-189 | The parameter letters boss declares, in declaration order: H Z T O. |
| CatalogProperties.BossShapes | src/types/Probe.ts:156-189 | Every setting of boss is well-formed. Each number default lies within `min`/`max` and has `step` > 0. Each enum has options and a default index into them. `condition` and `conditionValue` come together. |
| CatalogProperties.BossConditions | src/types/Probe.ts:156-189 | No setting of boss is conditional. Every setting is therefore active. |
| CatalogProperties.BossSound | src/types/Probe.ts:156-189 | boss meets all the invariants of an operation: unique keys, distinct parameter letters, well-formed settings and resolving conditions. With its defaults, all its settings are active. |
| CatalogProperties.RectanglePocketKeys | src/types/Probe.ts:190-237 | rectanglePocket declares its settings under these keys, in this order: width, length, depth, surface-clearance, corner-clearance, overtravel. |
| CatalogProperties.RectanglePocketLetters | src/types/Probe.ts:190-237 | The parameter letters rectanglePocket declares, in declaration order: H I Z T C O. |
| CatalogProperties.RectanglePocketShapes | src/types/Probe.ts:190-237 | Every setting of rectanglePocket is well-formed. Each number default lies within `min`/`max` and has `step` > 0. Each enum has options and a default index into them. `condition` and `conditionValue` come together. |
| CatalogProperties.RectanglePocketConditions | src/types/Probe.ts:190-237 | No setting of rectanglePocket is conditional. Every setting is therefore active. |
| CatalogProperties.RectanglePocketSound | src/types/Probe.ts:190-237 | rectanglePocket meets all the invariants of an operation: unique keys, distinct parameter letters, well-formed settings and resolving conditions. With its defaults, all its settings are active. |
| CatalogProperties.RectangleBlockKeys | src/types/Probe.ts:238-284 | rectangleBlock declares its settings under these keys, in this order: width, length, depth, surface-clearance, corner-clearance, overtravel. |
| CatalogProperties.RectangleBlockLetters | src/types/Probe.ts:238-284 | The parameter letters rectangleBlock declares, in declaration order: H I Z T C O. |
| CatalogProperties.RectangleBlockShapes | src/types/Probe.ts:238-284 | Every setting of rectangleBlock is well-formed. Each number default lies within `min`/`max` and has `step` > 0. Each enum has options and a default index into them. `condition` and `conditionValue` come together. |
| CatalogProperties.RectangleBlockConditions | src/types/Probe.ts:238-284 | No setting of rectangleBlock is conditional. Every setting is therefore active. |
| CatalogProperties.RectangleBlockSound | src/types/Probe.ts:238-284 | rectangleBlock meets all the invariants of an operation: unique keys, distinct parameter letters, well-formed settings and resolving conditions. With its defaults, all its settings are active. |
| CatalogProperties.OutsideCornerKeys | src/types/Probe.ts:285-353 | outsideCorner declares its settings under these keys, in this order: quick, corner, width, length, depth, surface-clearance, corner-clearance, overtravel. |
| CatalogProperties.OutsideCornerLetters | src/types/Probe.ts:285-353 | The parameter letters outsideCorner declares, in declaration order: Q N H I Z T C O. |
| CatalogProperties.OutsideCornerShapes | src/types/Probe.ts:285-353 | Every setting of outsideCorner is well-formed. Each number default lies within `min`/`max` and has `step` > 0. Each enum has options and a default index into them. `condition` and `conditionValue` come together. |
| CatalogProperties.OutsideCornerConditions | src/types/Probe.ts:285-353 | In outsideCorner only width and length are conditional. Both are on `quick` and expect it off. Every condition names a boolean sibling, and with the defaults every setting is active. |
| CatalogProperties.OutsideCornerSound | src/types/Probe.ts:285-353 | outsideCorner meets all the invariants of an operation: unique keys, distinct parameter letters, well-formed settings and resolving conditions. With its defaults, all its settings are active. |
| CatalogProperties.ViseCornerKeys | src/types/Probe.ts:354-416 | viseCorner declares its settings under these keys, in this order: quick, corner, width, length, depth, surface-clearance, corner-clearance, overtravel. |
| CatalogProperties.ViseCornerLetters | src/types/Probe.ts:354-416 | The parameter letters viseCorner declares, in declaration order: T C O (only the shared entries). |
| CatalogProperties.ViseCornerShapes | src/types/Probe.ts:354-416 | Every setting of viseCorner is well-formed. Each number default lies within `min`/`max` and has `step` > 0. Each enum has options and a default index into them. `condition` and `conditionValue` come together. |
| CatalogProperties.ViseCornerConditions | src/types/Probe.ts:354-416 | In viseCorner only width and length are conditional. Both are on `quick` and expect it off. Every condition names a boolean sibling, and with the defaults every setting is active. |
| CatalogProperties.ViseCornerSound | src/types/Probe.ts:354-416 | viseCorner meets all the invariants of an operation: unique keys, distinct parameter letters, well-formed settings and resolving conditions. With its defaults, all its settings are active. |
| CatalogProperties.SingleSurfaceKeys | src/types/Probe.ts:417-443 | singleSurface declares its settings under these keys, in this order: surface, distance, overtravel. |
| CatalogProperties.SingleSurfaceLetters | src/types/Probe.ts:417-443 | The parameter letters singleSurface declares, in declaration order: O (only the shared overtravel). |
| CatalogProperties.SingleSurfaceShapes | src/types/Probe.ts:417-443 | Every setting of singleSurface is well-formed. Each number default lies within `min`/`max` and has `step` > 0. Each enum has options and a default index into them. `condition` and `conditionValue` come together. |
| CatalogProperties.SingleSurfaceConditions | src/types/Probe.ts:417-443 | No setting of singleSurface is conditional. Every setting is therefore active. |
| CatalogProperties.SingleSurfaceSound | src/types/Probe.ts:417-443 | singleSurface meets all the invariants of an operation: unique keys, distinct parameter letters, well-formed settings and resolving conditions. With its defaults, all its settings are active. |
| CatalogProperties.CatalogEntries | src/types/Probe.ts:121-443 | The default export holds exactly seven operations, in declaration order. |
| CatalogProperties.CatalogKeysAndCodes | src/types/Probe.ts:121-443 | The operation keys in declaration order are bore, boss, rectanglePocket, rectangleBlock, outsideCorner, viseCorner, singleSurface. Their codes are 6500.1, 6501.1, 6502.1, 6503.1, 6508.1, 6520.1, 6510.1. |
| CatalogProperties.OperationSound | src/types/Probe.ts:121-443 | Every operation of the catalog is well-formed. With its defaults, all of its settings are active. |
| CatalogProperties.CodesDistinct | src/types/Probe.ts:126-421 | No two operations share a macro code. |
| CatalogProperties.CatalogWellFormed | src/types/Probe.ts:121-443 | The catalog has unique operation keys and distinct codes, and every operation in it is well-formed. |
| CatalogProperties.NumberDefaultsInRange | src/types/Probe.ts:5-443 | Every number setting has `min` <= `value` <= `max` and `step` > 0. This covers each operation's own entries and the shared `valueSettings` entries. |
| CatalogProperties.EnumDefaultsValid | src/types/Probe.ts:300-429 | Every enum setting has at least one option, and its default `value` is a whole, zero-based index into them. |
| CatalogProperties.ParameterLettersUnique | src/types/Probe.ts:121-443 | Within each operation, no two settings feed the same parameter letter. |
| CatalogProperties.ConditionsNameBooleanSiblings | src/types/Probe.ts:292-399 | The only conditional settings are width and length in outsideCorner and viseCorner. Each has `condition: 'quick'` and `conditionValue: false`, and `quick` is a boolean sibling in the same operation. |
| CatalogProperties.DefaultsAllActive | src/types/Probe.ts:121-443 | With the declared defaults (quick mode off), every setting of every operation is active. |
| CatalogProperties.SideLengthsFollowQuickMode | src/types/Probe.ts:309-399 | In either corner operation, for any current values with unique keys, width and length are active exactly when the `quick` flag is off. |
| CatalogProperties.OptionListsMatchEnums | src/types/Probe.ts:46-428 | The corner option lists equal the `cornerNames` members in order, and the surface option list equals `surfaceNames` in order. So each option's index is its enum number, and the defaults select 'Front Left' and 'Left'. |
| CatalogProperties.SharedEntriesIdentical | src/types/Probe.ts:5-441 | Wherever an operation declares overtravel, surface-clearance or corner-clearance, the entry equals the shared `valueSettings` definition. |
| CatalogProperties.GetKnownOperations | src/types/Probe.ts:117-443 | For each of the seven operations, indexing the catalog by its key gives that operation. |
| CatalogProperties.GetOperation | src/types/Probe.ts:117-443 | Indexing the catalog gives an operation exactly for the seven declared keys. Any other own-property key gives `undefined`. |

## Left out

- `src/types/Probe.ts` has no routine that validates a value, derives a parameter list or reports an error, so the model has none either.
- NumericEnum.ValueOf: covers only the member-name keys of the compiled enum object. Its reverse keys '0'..'n-1' are read through `NumericEnum.NameOf`, and names inherited from `Object.prototype` (`toString`, ...) are not modelled. For both, `ValueOf` gives `None`.
- SettingSchema.Selected: gives `None` when `options` is absent, where JavaScript's `options[value]` throws a `TypeError`.
- ObjectMap.Get: reads own properties only. For names inherited from `Object.prototype` (`toString`, `constructor`, `hasOwnProperty`, `__proto__`), JavaScript yields the inherited member, but the model yields `None`. The catalog and `settings` objects never look such names up.
- CatalogProperties.GetOperation: states the result for own-property keys. Inherited `Object.prototype` names are not modelled, as for `ObjectMap.Get`.
- The macro-call comments at `src/types/Probe.ts:127`, `195` and `290` are not modelled. They are informal and do not match the settings: W, J, K and L are not settings, and Z is missing.
- Display-only fields are dropped: a setting's `description`, `icon` and `unit`, and an operation's `icon` and `description`. A setting's `label` is kept as `title`, because `label` is a Dafny keyword.
- Floating point is not modelled. `code`, `min`, `max`, `step` and `value` are exact reals, so 0.1 and 6500.1 are exact.
- `step` is never enforced against `value`, just as in the source. The only invariant about it is `step` > 0.
- The operations share the `valueSettings` objects by reference at runtime. That aliasing is not modelled: settings are immutable values, and a shared entry is the same value wherever it appears.
- Editing setting values at runtime is not modelled, because the source has no API for it. `SideLengthsFollowQuickMode` takes the current values as a parameter instead.
- `src/components/overrides/panels/index.ts` is not modelled. It only registers Vue components.
- JavaScript enumerates integer-like keys first. The model does not handle this, because no key in the catalog is integer-like, so insertion order is enumeration order.
