/** `UInstaLODIsotropicRemeshTool`: rebuilds the selected meshes with edges
  * of a uniform length.
  *
  * The tool's edge modes list the SDK's in the same order, so the tool holds
  * the SDK's own type.
  */
module InstaLODIsotropicRemeshTool {
  import opened Wrappers
  import opened UEString
  import opened Json
  import API = InstaLODAPI
  import opened InstaLODBaseTool

  datatype IsotropicOptions = IsotropicOptions(
    edgeMode: API.IsotropicRemeshingEdgeMode,
    targetEdgeSize: real,
    precision: Importance,
    weldingThreshold: real,
    geometricFeatureAngleInDegrees: real,
    /** In percent of the target edge size. */
    collapseThreshold: real,
    preserveColorSplits: bool,
    preserveUVSplits: bool,
    preserveNormalSplits: bool,
    preserveVolume: bool,
    recalculateNormals: bool,
    hardAngleThreshold: real,
    weightedNormals: bool)

  /** The property initialisers of the header, which `ResetSettings` also
    * restores. */
  const DefaultIsotropicOptions := IsotropicOptions(
    edgeMode := API.Automatic, targetEdgeSize := 1.0, precision := Normal,
    weldingThreshold := 0.0, geometricFeatureAngleInDegrees := 0.0,
    collapseThreshold := 75.0, preserveColorSplits := false,
    preserveUVSplits := true, preserveNormalSplits := false,
    preserveVolume := false, recalculateNormals := false,
    hardAngleThreshold := 80.0, weightedNormals := true)

  function EdgeModeName(m: API.IsotropicRemeshingEdgeMode): string {
    match m
    case Automatic => "Automatic"
    case Absolute => "Absolute"
    case BoundingSphereRelative => "BoundingSphereRelative"
  }

  /** The edge mode a profile string names, ignoring case; an unknown name
    * keeps `current`. */
  function EdgeModeForString(value: string, current: API.IsotropicRemeshingEdgeMode): (r: API.IsotropicRemeshingEdgeMode)
    ensures (!EqualsIgnoreCase(value, "Automatic") && !EqualsIgnoreCase(value, "Absolute")
             && !EqualsIgnoreCase(value, "BoundingSphereRelative")) ==> r == current
    ensures EqualsIgnoreCase(value, "Automatic") ==> r == API.Automatic
  {
    if EqualsIgnoreCase(value, "Automatic") then API.Automatic
    else if EqualsIgnoreCase(value, "Absolute") then API.Absolute
    else if EqualsIgnoreCase(value, "BoundingSphereRelative") then API.BoundingSphereRelative
    else current
  }

  lemma EdgeModeNameRoundTrip(m: API.IsotropicRemeshingEdgeMode, spelled: string, current: API.IsotropicRemeshingEdgeMode)
    requires EqualsIgnoreCase(spelled, EdgeModeName(m))
    ensures EdgeModeForString(spelled, current) == m
  {
    assert ToLower(spelled) == ToLower(EdgeModeName(m));
    assert ToLower("Automatic")[1] == 'u' && ToLower("Absolute")[1] == 'b';
    assert ToLower("BoundingSphereRelative")[0] == 'b';
  }

  /** The options after reading the "Settings" object `s` over `o`, as
    * written: the weighted normals flag is read from the "PreserveVolume"
    * key, and the feature angle and collapse threshold are read as
    * integers. */
  function ReadIsotropicOptionsAsWritten(s: Object, o: IsotropicOptions): (r: IsotropicOptions)
    ensures "PreserveVolume" in s ==> r.weightedNormals == r.preserveVolume
    ensures "PreserveVolume" !in s ==> r.weightedNormals == o.weightedNormals
    ensures "CollapseThreshold" in s ==> r.collapseThreshold == GetIntegerField(s, "CollapseThreshold") as real
  {
    ReadIsotropicOptions(s, o).(weightedNormals := BoolOr(s, "PreserveVolume", o.weightedNormals))
  }

  /** A profile that turns weighted normals off leaves them on, and one that
    * preserves volume turns them on. */
  lemma WeightedNormalsReadFromWrongKey()
    ensures ReadIsotropicOptionsAsWritten(map["WeightedNormals" := JBool(false)], DefaultIsotropicOptions).weightedNormals
    ensures ReadIsotropicOptionsAsWritten(map["PreserveVolume" := JBool(true)],
      DefaultIsotropicOptions.(weightedNormals := false)).weightedNormals
  {
  }

  /** The options after reading `s` over `o` with the weighted normals flag
    * taken from its own key, "WeightedNormals". */
  function ReadIsotropicOptions(s: Object, o: IsotropicOptions): (r: IsotropicOptions)
    ensures "WeightedNormals" in s ==> r.weightedNormals == GetBoolField(s, "WeightedNormals")
    ensures "WeightedNormals" !in s ==> r.weightedNormals == o.weightedNormals
    ensures "EdgeMode" !in s ==> r.edgeMode == o.edgeMode
    ensures "EdgeMode" in s ==> r.edgeMode == EdgeModeForString(GetStringField(s, "EdgeMode"), o.edgeMode)
  {
    IsotropicOptions(
      edgeMode := if HasField(s, "EdgeMode") then EdgeModeForString(GetStringField(s, "EdgeMode"), o.edgeMode) else o.edgeMode,
      targetEdgeSize := NumberOr(s, "TargetEdgeSize", o.targetEdgeSize),
      precision := ImportanceOr(s, "Precision", o.precision),
      weldingThreshold := NumberOr(s, "WeldingThreshold", o.weldingThreshold),
      geometricFeatureAngleInDegrees := IntegerAsRealOr(s, "GeometricFeatureAngleInDegrees", o.geometricFeatureAngleInDegrees),
      collapseThreshold := IntegerAsRealOr(s, "CollapseThreshold", o.collapseThreshold),
      preserveColorSplits := BoolOr(s, "PreserveColorSplits", o.preserveColorSplits),
      preserveUVSplits := BoolOr(s, "PreserveTexCoordSplits", o.preserveUVSplits),
      preserveNormalSplits := BoolOr(s, "PreserveNormalSplits", o.preserveNormalSplits),
      preserveVolume := BoolOr(s, "PreserveVolume", o.preserveVolume),
      recalculateNormals := BoolOr(s, "RecalculateNormals", o.recalculateNormals),
      hardAngleThreshold := NumberOr(s, "HardAngleThreshold", o.hardAngleThreshold),
      weightedNormals := BoolOr(s, "WeightedNormals", o.weightedNormals))
  }

  /** With each flag read from its own key, the weighted normals and the
    * volume preservation are independent: setting one leaves the other. */
  lemma ReadIsotropicOptionsKeepsFlagsApart(o: IsotropicOptions, b: bool)
    ensures ReadIsotropicOptions(map["PreserveVolume" := JBool(b)], o).weightedNormals == o.weightedNormals
    ensures ReadIsotropicOptions(map["WeightedNormals" := JBool(b)], o).preserveVolume == o.preserveVolume
    ensures ReadIsotropicOptions(map["WeightedNormals" := JBool(b)], o).weightedNormals == b
  {
  }

  /** Reading is idempotent, and an object without keys changes nothing. */
  lemma ReadIsotropicOptionsLaws(s: Object, o: IsotropicOptions)
    ensures ReadIsotropicOptions(map[], o) == o
    ensures ReadIsotropicOptions(s, ReadIsotropicOptions(s, o)) == ReadIsotropicOptions(s, o)
  {
  }

  /** `GetIsotropicRemeshingSettings`: the collapse threshold goes from
    * percent to a fraction; the SDK's deterministic flag keeps its default. */
  function IsotropicRemeshingSettingsFor(o: IsotropicOptions): (r: API.IsotropicRemeshingSettings)
    ensures r.collapseThreshold * 100.0 == o.collapseThreshold
    ensures FromSDKImportance(r.precision) == o.precision
    ensures r.preserveTexCoordSplits == o.preserveUVSplits && r.weightedNormals == o.weightedNormals
    ensures r.deterministic == API.DefaultIsotropicRemeshingSettings.deterministic
  {
    ImportanceCastIsBijection(o.precision, Normal);
    API.IsotropicRemeshingSettings(
      edgeMode := o.edgeMode,
      targetEdgeSize := o.targetEdgeSize,
      precision := ToSDKImportance(o.precision),
      weldingThreshold := o.weldingThreshold,
      geometricFeatureAngleInDegrees := o.geometricFeatureAngleInDegrees,
      collapseThreshold := o.collapseThreshold / 100.0,
      preserveColorSplits := o.preserveColorSplits,
      preserveTexCoordSplits := o.preserveUVSplits,
      preserveNormalSplits := o.preserveNormalSplits,
      preserveVolume := o.preserveVolume,
      recalculateNormals := o.recalculateNormals,
      hardAngleThreshold := o.hardAngleThreshold,
      weightedNormals := o.weightedNormals,
      deterministic := API.DefaultIsotropicRemeshingSettings.deterministic)
  }

  /** The default options, 75 percent included, reach the SDK as the SDK's
    * own defaults (a collapse threshold of 0.75). */
  lemma DefaultsMatchSDKDefaults()
    ensures IsotropicRemeshingSettingsFor(DefaultIsotropicOptions) == API.DefaultIsotropicRemeshingSettings
  {
  }

  class IsotropicRemeshTool {
    const base: BaseTool
    var options: IsotropicOptions

    constructor(config: IsotropicOptions)
      ensures fresh(base) && base.orderId == 8 && base.freezesTransformsForMultiSelection
      ensures options == config
    {
      base := new BaseTool(8, true);
      options := config;
    }

    /** `ResetSettings`: every option back to its default, then the base
      * tool's reset. */
    method ResetSettings()
      modifies this, base
      ensures options == DefaultIsotropicOptions
      ensures options.collapseThreshold == 75.0 && options.preserveUVSplits
      ensures base.targetLODIndex == 0 && !base.replaceSelectedMeshes && base.pivotPosition == Default
      ensures base.window == old(base.window) && base.meshComponents == old(base.meshComponents)
    {
      options := DefaultIsotropicOptions;
      base.ResetSettings();
    }

    function GetIsotropicRemeshingSettings(): (r: API.IsotropicRemeshingSettings)
      reads this
      ensures r == IsotropicRemeshingSettingsFor(options)
    {
      IsotropicRemeshingSettingsFor(options)
    }

    /** `ReadSettingsFromJSONObject`: an entry for "IsotropicRemesh" with a
      * "Settings" object is read over the options; anything else is refused
      * and changes nothing. */
    method ReadSettingsFromJSONObject(json: Option<Object>) returns (ok: bool)
      modifies this
      ensures ok <==> IsValidJSONObject(json, "IsotropicRemesh") && TryGetObjectField(json.value, "Settings").Some?
      ensures ok ==> options == ReadIsotropicOptions(TryGetObjectField(json.value, "Settings").value, old(options))
      ensures !ok ==> options == old(options)
    {
      if !IsValidJSONObject(json, "IsotropicRemesh") {
        return false;
      }
      var settings := TryGetObjectField(json.value, "Settings");
      if settings.None? {
        return false;
      }
      options := ReadIsotropicOptions(settings.value, options);
      return true;
    }
  }
}
