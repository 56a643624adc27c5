/** The shape of one probe setting: the base `ProbeSetting` record, the three
    refinements that fix its `type` discriminant and the meaning of its
    `value`, the type guards that test the discriminant, and the
    well-formedness a setting's declared default is expected to meet.

    Numbers are exact reals; the source's `number` is a double, which the
    model does not follow. `description`, `icon` and `unit` are display
    text and are not modelled; `label` is kept as `title` (`label` is a
    Dafny keyword). */
module SettingSchema {
  import opened Wrappers
  import opened Distinct
  import opened NumericEnum

  /** Every property of `ProbeSetting` apart from `type`. */
  datatype Fields = Fields(
    title: string,
    parameter: Option<string>,
    min: Option<real>,
    max: Option<real>,
    step: Option<real>,
    options: Option<seq<string>>,
    condition: Option<string>,
    conditionValue: Option<bool>)

  /** The base `ProbeSetting` type: its `type` may be any string, and it
      carries no `value`. */
  datatype ProbeSetting = ProbeSetting(kind: string, fields: Fields)

  /** `ProbeSettingAll`, the union of the three refinements. A boolean
      setting's value is a flag, a number setting's a magnitude, and an enum
      setting's a (TypeScript `number`) index into `options`. */
  datatype Setting =
    | BooleanSetting(fields: Fields, flag: bool)
    | NumberSetting(fields: Fields, magnitude: real)
    | EnumSetting(fields: Fields, index: real)

  const BooleanType: string := "boolean"
  const NumberType: string := "number"
  const EnumType: string := "enum"

  /** The `type` literal each refinement fixes. */
  function TypeOf(s: Setting): string
  {
    match s
    case BooleanSetting(_, _) => BooleanType
    case NumberSetting(_, _) => NumberType
    case EnumSetting(_, _) => EnumType
  }

  /** A `ProbeSettingAll` seen through its base type `ProbeSetting`, which is
      how the guards receive it. */
  function AsProbeSetting(s: Setting): ProbeSetting
  {
    ProbeSetting(TypeOf(s), s.fields)
  }

  predicate IsBooleanSetting(p: ProbeSetting)
  {
    p.kind == BooleanType
  }

  predicate IsNumberSetting(p: ProbeSetting)
  {
    p.kind == NumberType
  }

  predicate IsEnumSetting(p: ProbeSetting)
  {
    p.kind == EnumType
  }

  /** How many of the three guards accept `p`. */
  function GuardsAccepting(p: ProbeSetting): nat
  {
    (if IsBooleanSetting(p) then 1 else 0)
    + (if IsNumberSetting(p) then 1 else 0)
    + (if IsEnumSetting(p) then 1 else 0)
  }

  /** On the base type at most one guard holds, and one holds exactly when
      `type` is one of the three literals of the union. */
  lemma AtMostOneGuard(p: ProbeSetting)
    ensures GuardsAccepting(p) <= 1
    ensures GuardsAccepting(p) == 1 <==> p.kind in [BooleanType, NumberType, EnumType]
  {
  }

  /** On a member of the union exactly one guard holds, and it is the one
      that names the member's own refinement: each guard narrows soundly and
      completely. */
  lemma GuardNamesVariant(s: Setting)
    ensures GuardsAccepting(AsProbeSetting(s)) == 1
    ensures IsBooleanSetting(AsProbeSetting(s)) <==> s.BooleanSetting?
    ensures IsNumberSetting(AsProbeSetting(s)) <==> s.NumberSetting?
    ensures IsEnumSetting(AsProbeSetting(s)) <==> s.EnumSetting?
  {
  }

  /** A number setting's value lies within its inclusive `min`/`max` bounds,
      both of which are declared. */
  predicate InRange(s: Setting)
  {
    && s.NumberSetting?
    && s.fields.min.Some?
    && s.fields.max.Some?
    && s.fields.min.value <= s.magnitude <= s.fields.max.value
  }

  /** An enum setting's value is a whole number that indexes its declared
      `options` from zero. */
  predicate ValidIndex(s: Setting)
  {
    && s.EnumSetting?
    && s.fields.options.Some?
    && s.index.Floor as real == s.index
    && 0 <= s.index.Floor < |s.fields.options.value|
  }

  /** The option an enum setting's value selects: `options[value]`, or
      `None` where there is no such option (JavaScript yields `undefined`,
      or throws a `TypeError` when `options` is absent). */
  function Selected(s: Setting): (r: Option<string>)
    requires s.EnumSetting?
    ensures r.Some? <==> ValidIndex(s)
    ensures r.Some? ==> r.value == s.fields.options.value[s.index.Floor]
  {
    if ValidIndex(s) then Some(s.fields.options.value[s.index.Floor]) else None
  }

  /** When the option labels are distinct, the label a value selects leads
      back to that value: its position in `options` is the index. */
  lemma SelectedRoundTrip(s: Setting)
    requires s.EnumSetting? && s.fields.options.Some?
    requires PairwiseDistinct(s.fields.options.value)
    ensures Selected(s).Some? ==>
      ValueOf(s.fields.options.value, Selected(s).value) == Some(s.index.Floor)
  {
    if ValidIndex(s) {
      EnumRoundTrip(s.fields.options.value, s.index.Floor);
    }
  }

  /** What each declared setting is expected to satisfy: a condition always
      comes with the value it compares against; a number setting has its
      value within bounds and a positive `step` (which never constrains the
      value itself); an enum setting has at least one option and a value
      indexing one. */
  predicate WellFormedSetting(s: Setting)
  {
    && (s.fields.condition.Some? <==> s.fields.conditionValue.Some?)
    && match s
       case BooleanSetting(_, _) => true
       case NumberSetting(f, _) => InRange(s) && f.step.Some? && f.step.value > 0.0
       case EnumSetting(f, _) => f.options.Some? && |f.options.value| >= 1 && ValidIndex(s)
  }
}
