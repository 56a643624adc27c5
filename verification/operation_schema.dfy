/** One probe operation (`ProbeType`) and the catalog of them (`ProbeTypes`):
    the settings an operation declares, which of them feed a macro
    parameter, how a condition ties a setting to a boolean sibling, and the
    well-formedness invariants of an operation and of a catalog. */
module OperationSchema {
  import opened Wrappers
  import opened Distinct
  import opened ObjectMap
  import opened SettingSchema

  /** `ProbeSettings`: setting key to setting, in declaration order. */
  type Settings = Object<Setting>

  /** `ProbeType`, without its display-only `icon` and `description`. */
  datatype ProbeType = ProbeType(name: string, code: real, settings: Settings)

  /** `ProbeTypes`: operation key to operation, in declaration order. */
  type Catalog = Object<ProbeType>

  /** The letter a setting feeds, as a list of at most one. */
  function LetterOf(s: Setting): seq<string>
  {
    match s.fields.parameter
    case Some(l) => [l]
    case None => []
  }

  /** The parameter letters the first `n` settings declare, in declaration
      order; settings without a `parameter` contribute nothing. */
  function LettersOfFirst(ss: Settings, n: nat): seq<string>
    requires n <= |ss|
  {
    if n == 0 then [] else LettersOfFirst(ss, n - 1) + LetterOf(ss[n - 1].1)
  }

  /** The parameter letters all the settings declare, in declaration order. */
  function ParameterLetters(ss: Settings): seq<string>
  {
    LettersOfFirst(ss, |ss|)
  }

  /** A letter is listed for the first `n` settings exactly when one of them
      declares it. */
  lemma {:induction false} LettersOfFirstMembers(ss: Settings, n: nat)
    requires n <= |ss|
    ensures forall l :: l in LettersOfFirst(ss, n) <==>
      exists i :: 0 <= i < n && ss[i].1.fields.parameter == Some(l)
  {
    if n > 0 {
      LettersOfFirstMembers(ss, n - 1);
    }
  }

  /** A letter is listed exactly when some setting declares it. */
  lemma ParameterLettersMembers(ss: Settings)
    ensures forall l :: l in ParameterLetters(ss) <==>
      exists i :: 0 <= i < |ss| && ss[i].1.fields.parameter == Some(l)
  {
    LettersOfFirstMembers(ss, |ss|);
  }

  /** No two of the first `n` settings that declare a parameter letter
      declare the same one. */
  ghost predicate ParametersDistinctBefore(ss: Settings, n: nat)
    requires n <= |ss|
  {
    forall i, j :: 0 <= i < j < n && ss[i].1.fields.parameter.Some? ==>
      ss[i].1.fields.parameter != ss[j].1.fields.parameter
  }

  /** No two settings that declare a parameter letter declare the same one. */
  ghost predicate ParametersDistinct(ss: Settings)
  {
    ParametersDistinctBefore(ss, |ss|)
  }

  /** The letters of the first `n` settings have no repeats exactly when no
      two of those settings share a parameter letter. */
  lemma {:induction false} LettersOfFirstDistinct(ss: Settings, n: nat)
    requires n <= |ss|
    ensures PairwiseDistinct(LettersOfFirst(ss, n)) <==> ParametersDistinctBefore(ss, n)
  {
    if n > 0 {
      LettersOfFirstDistinct(ss, n - 1);
      LettersOfFirstMembers(ss, n - 1);
      DistinctAppend(LettersOfFirst(ss, n - 1), LetterOf(ss[n - 1].1));
    }
  }

  /** The letter list has no repeats exactly when no two settings share a
      parameter letter. */
  lemma LettersDistinctIffParametersDistinct(ss: Settings)
    ensures PairwiseDistinct(ParameterLetters(ss)) <==> ParametersDistinct(ss)
  {
    LettersOfFirstDistinct(ss, |ss|);
  }

  /** A setting's condition, if it has one, names a boolean setting among
      `ss`. That it names a sibling rather than the setting itself is
      required separately, by `ConditionsResolve`. */
  predicate ConditionResolves(ss: Settings, s: Setting)
  {
    match s.fields.condition
    case None => true
    case Some(key) =>
      var sibling: Option<Setting> := Get(ss, key);
      sibling.Some? && sibling.value.BooleanSetting?
  }

  /** Whether a setting is active among its siblings: always when it has no
      `condition`, otherwise when the sibling its `condition` names holds the
      flag its `conditionValue` gives. `None` when that comparison cannot be
      made: the sibling is missing or not boolean, or `conditionValue` is
      absent. */
  function IsActive(ss: Settings, s: Setting): (r: Option<bool>)
    ensures s.fields.condition.None? ==> r == Some(true)
    ensures s.fields.condition.Some? && r.Some? ==>
      && s.fields.conditionValue.Some?
      && exists i :: 0 <= i < |ss| && ss[i].0 == s.fields.condition.value && ss[i].1.BooleanSetting?
           && r.value == (ss[i].1.flag == s.fields.conditionValue.value)
    ensures r.None? <==> s.fields.condition.Some? && (!ConditionResolves(ss, s) || s.fields.conditionValue.None?)
  {
    match s.fields.condition
    case None => Some(true)
    case Some(key) =>
      var sibling: Option<Setting> := Get(ss, key);
      if sibling.Some? && sibling.value.BooleanSetting? && s.fields.conditionValue.Some?
      then Some(sibling.value.flag == s.fields.conditionValue.value)
      else None
  }

  /** With unique keys, a conditional setting is active exactly when the
      named boolean sibling's flag equals `conditionValue`. */
  lemma ActiveIffConditionMet(ss: Settings, s: Setting, j: nat)
    requires UniqueKeys(ss)
    requires j < |ss| && ss[j].1.BooleanSetting?
    requires s.fields.condition == Some(ss[j].0)
    requires s.fields.conditionValue.Some?
    ensures IsActive(ss, s) == Some(ss[j].1.flag == s.fields.conditionValue.value)
  {
    GetDeclared(ss, j);
  }

  /** Every setting meets `WellFormedSetting`. */
  ghost predicate SettingsWellFormed(ss: Settings)
  {
    forall i :: 0 <= i < |ss| ==> WellFormedSetting(ss[i].1)
  }

  /** Every condition names a boolean sibling: another setting, never the
      conditional setting itself. */
  ghost predicate ConditionsResolve(ss: Settings)
  {
    forall i :: 0 <= i < |ss| ==>
      ConditionResolves(ss, ss[i].1) && ss[i].1.fields.condition != Some(ss[i].0)
  }

  /** The invariants of one operation: unique keys, distinct parameter
      letters, every setting well-formed, and every condition resolving to a
      boolean sibling. */
  ghost predicate WellFormedOperation(op: ProbeType)
  {
    && UniqueKeys(op.settings)
    && ParametersDistinct(op.settings)
    && SettingsWellFormed(op.settings)
    && ConditionsResolve(op.settings)
  }

  /** In a well-formed operation every setting's activity is decided. */
  lemma ActivityDecided(op: ProbeType, i: nat)
    requires WellFormedOperation(op)
    requires i < |op.settings|
    ensures IsActive(op.settings, op.settings[i].1).Some?
  {
  }

  /** The macro codes of the catalog's operations, in declaration order. */
  function Codes(c: Catalog): (r: seq<real>)
    ensures |r| == |c|
    ensures forall i :: 0 <= i < |c| ==> r[i] == c[i].1.code
  {
    if |c| == 0 then [] else [c[0].1.code] + Codes(c[1..])
  }

  /** The invariants of the catalog: unique operation keys, distinct macro
      codes and well-formed operations. */
  ghost predicate WellFormedCatalog(c: Catalog)
  {
    && UniqueKeys(c)
    && PairwiseDistinct(Codes(c))
    && forall i :: 0 <= i < |c| ==> WellFormedOperation(c[i].1)
  }
}
