/** `UInstaLODOptimizeTool`: polygon reduction. The tool keeps a radio choice
  * of the reduction target (a percentage of the triangles, an absolute
  * triangle count or a screen size), its reduction options, and converts them
  * into the SDK's optimize settings.
  *
  * The target is chosen by `SettingsCheckBoxIndex` and mirrored in three
  * flags, as in the source; the other options are one record, `options`.
  * The skeleton optimisation options are compiled out of the conversion and
  * the reset in the source (`INSTALOD_SKELETON_OPTIMIZE` is not defined), so
  * they are only read from profiles here.
  */
module InstaLODOptimizeTool {
  import opened Wrappers
  import opened UEString
  import opened Json
  import API = InstaLODAPI
  import opened InstaLODBaseTool

  /** The three reduction targets of the radio buttons. */
  datatype ReductionTarget = PercentTarget | AbsoluteTarget | ScreenSizeTarget

  /** The target a radio index selects: 1 and 2 select the absolute count and
    * the screen size; 0 and every other index select the percentage. */
  function TargetForIndex(index: int): (t: ReductionTarget)
    ensures t == AbsoluteTarget <==> index == 1
    ensures t == ScreenSizeTarget <==> index == 2
    ensures t == PercentTarget <==> index != 1 && index != 2
  {
    if index == 1 then AbsoluteTarget
    else if index == 2 then ScreenSizeTarget
    else PercentTarget
  }

  datatype SkeletonOptions = SkeletonOptions(
    leafBoneWeldDistance: real,
    maximumBoneDepth: int,
    maxInfluencePerVertex: int,
    minInfluenceThreshold: real,
    ignoreJointRegEx: string)

  /** The tool's reduction options. `percentTriangles` is a percentage
    * (0 to 100), as the details panel shows it. */
  datatype OptimizeOptions = OptimizeOptions(
    automaticQuality: Importance,
    percentTriangles: real,
    absoluteTriangles: int,
    screenSizeInPixels: int,
    maximumDeviation: real,
    boundaryImportance: Importance,
    textureImportance: Importance,
    shadingImportance: Importance,
    silhouetteImportance: Importance,
    skinningImportance: Importance,
    recalculateNormals: bool,
    hardAngleThreshold: real,
    protectSplits: bool,
    protectBoundaries: bool,
    optimalPlacement: bool,
    normalizeMeshScale: bool,
    deterministic: bool,
    weldingDistance: real,
    tJunctionHealingDistance: real,
    lockSplits: bool,
    lockBoundaries: bool,
    vertexColorsAsOptimizerWeights: bool,
    skeleton: SkeletonOptions)

  /** The options `ResetSettings` restores over `o`: every option but the
    * skeleton ones, which the reset leaves alone. */
  function ResetOptimizeOptions(o: OptimizeOptions): (r: OptimizeOptions)
    ensures r.skeleton == o.skeleton
    ensures r.percentTriangles == 50.0 && r.absoluteTriangles == 4 && r.screenSizeInPixels == 300
    ensures r.automaticQuality == ImportanceOff && r.boundaryImportance == Normal
    ensures r.hardAngleThreshold == 80.0 && r.protectSplits && r.protectBoundaries && r.optimalPlacement
  {
    OptimizeOptions(
      automaticQuality := ImportanceOff,
      percentTriangles := 50.0,
      absoluteTriangles := 4,
      screenSizeInPixels := 300,
      maximumDeviation := 0.0,
      boundaryImportance := Normal,
      textureImportance := Normal,
      shadingImportance := Normal,
      silhouetteImportance := Normal,
      skinningImportance := Normal,
      recalculateNormals := false,
      hardAngleThreshold := 80.0,
      protectSplits := true,
      protectBoundaries := true,
      optimalPlacement := true,
      normalizeMeshScale := false,
      deterministic := false,
      weldingDistance := 0.0,
      tJunctionHealingDistance := 0.0,
      lockSplits := false,
      lockBoundaries := false,
      vertexColorsAsOptimizerWeights := false,
      skeleton := o.skeleton)
  }

  /** The "SkeletonOptimize" object read over the skeleton options. */
  function ReadSkeletonOptions(k: Object, o: SkeletonOptions): (r: SkeletonOptions)
    ensures k == map[] ==> r == o
  {
    SkeletonOptions(
      leafBoneWeldDistance := NumberOr(k, "LeafBoneWeldDistance", o.leafBoneWeldDistance),
      maximumBoneDepth := IntegerOr(k, "MaximumBoneDepth", o.maximumBoneDepth),
      maxInfluencePerVertex := IntegerOr(k, "MaximumBoneInfluencesPerVertex", o.maxInfluencePerVertex),
      minInfluenceThreshold := NumberOr(k, "MinimumBoneInfluenceThreshold", o.minInfluenceThreshold),
      ignoreJointRegEx := if HasField(k, "IgnoreJointRegEx") then GetStringField(k, "IgnoreJointRegEx") else o.ignoreJointRegEx)
  }

  /** The options after reading the profile's "Settings" object `s` over `o`.
    * The percentage is stored in the profile as a fraction and scaled by 100;
    * the welding distance and the vertex-colour weights are not read. */
  function ReadOptimizeOptions(s: Object, o: OptimizeOptions): (r: OptimizeOptions)
    ensures "PercentTriangles" !in s ==> r.percentTriangles == o.percentTriangles
    ensures "PercentTriangles" in s ==> r.percentTriangles == GetNumberField(s, "PercentTriangles") * 100.0
    ensures r.weldingDistance == o.weldingDistance
    ensures r.vertexColorsAsOptimizerWeights == o.vertexColorsAsOptimizerWeights
  {
    OptimizeOptions(
      automaticQuality := ImportanceOr(s, "AutomaticQuality", o.automaticQuality),
      percentTriangles := if HasField(s, "PercentTriangles") then GetNumberField(s, "PercentTriangles") * 100.0 else o.percentTriangles,
      absoluteTriangles := IntegerOr(s, "AbsoluteTriangles", o.absoluteTriangles),
      screenSizeInPixels := IntegerOr(s, "ScreenSizeInPixels", o.screenSizeInPixels),
      maximumDeviation := NumberOr(s, "MaxDeviation", o.maximumDeviation),
      boundaryImportance := ImportanceOr(s, "BoundaryImportance", o.boundaryImportance),
      textureImportance := ImportanceOr(s, "TextureImportance", o.textureImportance),
      shadingImportance := ImportanceOr(s, "ShadingImportance", o.shadingImportance),
      silhouetteImportance := ImportanceOr(s, "SilhouetteImportance", o.silhouetteImportance),
      skinningImportance := ImportanceOr(s, "SkinningImportance", o.skinningImportance),
      recalculateNormals := BoolOr(s, "RecalculateNormals", o.recalculateNormals),
      hardAngleThreshold := NumberOr(s, "HardAngleThreshold", o.hardAngleThreshold),
      protectSplits := BoolOr(s, "ProtectSplits", o.protectSplits),
      protectBoundaries := BoolOr(s, "ProtectBoundaries", o.protectBoundaries),
      optimalPlacement := BoolOr(s, "OptimalPlacement", o.optimalPlacement),
      normalizeMeshScale := BoolOr(s, "NormalizeMeshScale", o.normalizeMeshScale),
      deterministic := BoolOr(s, "Deterministic", o.deterministic),
      weldingDistance := o.weldingDistance,
      tJunctionHealingDistance := NumberOr(s, "HealTJunctionThreshold", o.tJunctionHealingDistance),
      lockSplits := BoolOr(s, "LockSplits", o.lockSplits),
      lockBoundaries := BoolOr(s, "LockBoundaries", o.lockBoundaries),
      vertexColorsAsOptimizerWeights := o.vertexColorsAsOptimizerWeights,
      skeleton := if HasField(s, "SkeletonOptimize") then ReadSkeletonOptions(GetObjectField(s, "SkeletonOptimize"), o.skeleton) else o.skeleton)
  }

  /** A "Settings" object without any of the keys changes nothing. */
  lemma ReadOptimizeOptionsEmpty(o: OptimizeOptions)
    ensures ReadOptimizeOptions(map[], o) == o
  {
  }

  /** Reading the same object twice is reading it once. */
  lemma ReadOptimizeOptionsIdempotent(s: Object, o: OptimizeOptions)
    ensures ReadOptimizeOptions(s, ReadOptimizeOptions(s, o)) == ReadOptimizeOptions(s, o)
  {
  }

  /** The percentage round trip: a profile fraction is stored as a
    * percentage, and the conversion for the percentage target hands the SDK
    * that same fraction. */
  lemma PercentTrianglesRoundTrip(s: Object, o: OptimizeOptions, fraction: real, a: bool, k: bool)
    requires "PercentTriangles" in s && s["PercentTriangles"] == JNumber(fraction)
    ensures OptimizeSettingsFor(ReadOptimizeOptions(s, o), true, a, k).percentTriangles == fraction
  {
  }

  /** An importance written under its own name, in any letter case, is read
    * back as that level. */
  lemma ImportanceOptionRoundTrip(s: Object, key: string, i: Importance, current: Importance)
    requires key in s && s[key].JString? && EqualsIgnoreCase(s[key].s, ImportanceName(i))
    ensures ImportanceOr(s, key, current) == i
  {
    ImportanceNameRoundTrip(i, s[key].s);
  }

  /** `GetOptimizeSettings` as written: the SDK defaults with the options
    * that apply. Only the selected target is filled in, the percentage as a
    * fraction; the integer counts are converted to unsigned 32 bits. The
    * boundary importance is not passed on. */
  function OptimizeSettingsFor(o: OptimizeOptions, usePercent: bool, useAbsolute: bool, useScreenSize: bool): (r: API.OptimizeSettings)
    ensures usePercent ==> r.percentTriangles == o.percentTriangles / 100.0
    ensures !usePercent ==> r.percentTriangles == API.DefaultOptimizeSettings.percentTriangles
    ensures !usePercent && useAbsolute ==> r.absoluteTriangles == API.UInt32(o.absoluteTriangles)
    ensures !(!usePercent && useAbsolute) ==> r.absoluteTriangles == API.DefaultOptimizeSettings.absoluteTriangles
    ensures !usePercent && !useAbsolute && useScreenSize ==> r.screenSizeInPixels == API.UInt32(o.screenSizeInPixels)
    ensures !(!usePercent && !useAbsolute && useScreenSize) ==> r.screenSizeInPixels == API.DefaultOptimizeSettings.screenSizeInPixels
    ensures r.algorithmStrategy == API.SmartV2
    ensures r.boundaryImportance == API.DefaultOptimizeSettings.boundaryImportance
    ensures r.skeletonOptimize == API.DefaultSkeletonOptimizeSettings
  {
    var d := API.DefaultOptimizeSettings;
    var withTarget :=
      if usePercent then d.(percentTriangles := o.percentTriangles / 100.0)
      else if useAbsolute then d.(absoluteTriangles := API.UInt32(o.absoluteTriangles))
      else if useScreenSize then d.(screenSizeInPixels := API.UInt32(o.screenSizeInPixels))
      else d;
    withTarget.(
      automaticQuality := ToSDKImportance(o.automaticQuality),
      maxDeviation := o.maximumDeviation,
      algorithmStrategy := API.SmartV2,
      textureImportance := ToSDKImportance(o.textureImportance),
      shadingImportance := ToSDKImportance(o.shadingImportance),
      skinningImportance := ToSDKImportance(o.skinningImportance),
      silhouetteImportance := ToSDKImportance(o.silhouetteImportance),
      recalculateNormals := o.recalculateNormals,
      hardAngleThreshold := o.hardAngleThreshold,
      weldingThreshold := o.weldingDistance,
      healTJunctionThreshold := o.tJunctionHealingDistance,
      lockSplits := o.lockSplits,
      lockBoundaries := o.lockBoundaries,
      protectSplits := o.protectSplits,
      protectBoundaries := o.protectBoundaries,
      optimalPlacement := o.optimalPlacement,
      normalizeMeshScale := o.normalizeMeshScale,
      optimizerVertexWeights := o.vertexColorsAsOptimizerWeights,
      deterministic := o.deterministic)
  }

  /** The boundary importance the user picks has no effect on the settings
    * the SDK receives: "Highest" and "Off" give the same settings. */
  lemma BoundaryImportanceIgnored(o: OptimizeOptions, p: bool, a: bool, s: bool)
    ensures OptimizeSettingsFor(o.(boundaryImportance := Highest), p, a, s) ==
            OptimizeSettingsFor(o.(boundaryImportance := ImportanceOff), p, a, s)
    ensures OptimizeSettingsFor(o.(boundaryImportance := Highest), p, a, s).boundaryImportance == API.Normal
  {
  }

  /** The conversion with the boundary importance passed on, like the four
    * other importances. */
  function OptimizeSettingsWithBoundaryImportance(o: OptimizeOptions, usePercent: bool, useAbsolute: bool, useScreenSize: bool): (r: API.OptimizeSettings)
    ensures r.boundaryImportance == ToSDKImportance(o.boundaryImportance)
    ensures r.(boundaryImportance := API.Normal) == OptimizeSettingsFor(o, usePercent, useAbsolute, useScreenSize)
  {
    OptimizeSettingsFor(o, usePercent, useAbsolute, useScreenSize).(boundaryImportance := ToSDKImportance(o.boundaryImportance))
  }

  /** With the boundary importance passed on, each level reaches the SDK as
    * itself, so two different choices give different settings. */
  lemma BoundaryImportanceHonoured(o: OptimizeOptions, i: Importance, j: Importance, p: bool, a: bool, s: bool)
    requires i != j
    ensures OptimizeSettingsWithBoundaryImportance(o.(boundaryImportance := i), p, a, s) !=
            OptimizeSettingsWithBoundaryImportance(o.(boundaryImportance := j), p, a, s)
  {
    ImportanceCastIsBijection(i, j);
  }

  /** With the flags a radio index sets, only the target it selects reaches
    * the SDK; the other two keep the SDK defaults. */
  lemma OnlySelectedTargetFilled(o: OptimizeOptions, index: int)
    ensures var t := TargetForIndex(index);
      var r := OptimizeSettingsFor(o, t == PercentTarget, t == AbsoluteTarget, t == ScreenSizeTarget);
      && (t == PercentTarget ==> r.percentTriangles == o.percentTriangles / 100.0)
      && (t != PercentTarget ==> r.percentTriangles == API.DefaultOptimizeSettings.percentTriangles)
      && (t != AbsoluteTarget ==> r.absoluteTriangles == API.DefaultOptimizeSettings.absoluteTriangles)
      && (t != ScreenSizeTarget ==> r.screenSizeInPixels == API.DefaultOptimizeSettings.screenSizeInPixels)
      && (t == AbsoluteTarget ==> r.absoluteTriangles == API.UInt32(o.absoluteTriangles))
      && (t == ScreenSizeTarget ==> r.screenSizeInPixels == API.UInt32(o.screenSizeInPixels))
  {
  }

  class OptimizeTool {
    const base: BaseTool
    var settingsCheckBoxIndex: int
    var usePercentTriangles: bool
    var useAbsoluteTriangles: bool
    var useScreenSizeInPixels: bool
    var options: OptimizeOptions
    /** The skeleton pose the skeleton optimisation bakes, by identity. */
    var bakePose: Option<nat>

    /** Exactly the flag of the selected target is set. */
    predicate FlagsMatchIndex()
      reads this
    {
      var t := TargetForIndex(settingsCheckBoxIndex);
      && (usePercentTriangles <==> t == PercentTarget)
      && (useAbsoluteTriangles <==> t == AbsoluteTarget)
      && (useScreenSizeInPixels <==> t == ScreenSizeTarget)
    }

    /** The constructor: the options and radio index come from the saved
      * configuration, and the flags are set from the index. */
    constructor(config: OptimizeOptions, checkBoxIndex: int)
      ensures fresh(base) && base.orderId == 1 && !base.freezesTransformsForMultiSelection
      ensures base.window == null && base.meshComponents == []
      ensures options == config && settingsCheckBoxIndex == checkBoxIndex && bakePose.None?
      ensures FlagsMatchIndex()
    {
      base := new BaseTool(1, false);
      options := config;
      bakePose := None;
      settingsCheckBoxIndex := checkBoxIndex;
      new;
      SetActiveSettingsIndex(checkBoxIndex);
    }

    /** `OnNewSelection`: the base tool's refresh, then the bake pose is
      * forgotten. */
    method OnNewSelection()
      modifies this, base
      ensures bakePose.None?
      ensures base.window == old(base.window)
      ensures base.window != null ==> base.meshComponents == InstaLODWindow.Filter(base.window.selectedComponents, InstaLODWindow.EnabledMesh)
      ensures old(base.Valid()) ==> base.Valid()
      ensures options == old(options) && settingsCheckBoxIndex == old(settingsCheckBoxIndex)
      ensures usePercentTriangles == old(usePercentTriangles) && useAbsoluteTriangles == old(useAbsoluteTriangles)
      ensures useScreenSizeInPixels == old(useScreenSizeInPixels)
    {
      base.OnNewSelection();
      bakePose := None;
    }

    /** `SetActiveSettingsIndex`: stores the index and sets exactly the flag
      * of the target it selects (saving the configuration is not modelled). */
    method SetActiveSettingsIndex(newIndex: int)
      modifies this
      ensures settingsCheckBoxIndex == newIndex && FlagsMatchIndex()
      ensures (usePercentTriangles && !useAbsoluteTriangles && !useScreenSizeInPixels)
           || (!usePercentTriangles && useAbsoluteTriangles && !useScreenSizeInPixels)
           || (!usePercentTriangles && !useAbsoluteTriangles && useScreenSizeInPixels)
      ensures options == old(options) && bakePose == old(bakePose)
    {
      settingsCheckBoxIndex := newIndex;
      if newIndex == 0 {
        usePercentTriangles, useAbsoluteTriangles, useScreenSizeInPixels := true, false, false;
      } else if newIndex == 1 {
        usePercentTriangles, useAbsoluteTriangles, useScreenSizeInPixels := false, true, false;
      } else if newIndex == 2 {
        usePercentTriangles, useAbsoluteTriangles, useScreenSizeInPixels := false, false, true;
      } else {
        usePercentTriangles, useAbsoluteTriangles, useScreenSizeInPixels := true, false, false;
      }
    }

    /** `ResetSettings`: index 0 (the percentage), the documented defaults,
      * then the base tool's reset. */
    method ResetSettings()
      modifies this, base
      ensures settingsCheckBoxIndex == 0 && usePercentTriangles && !useAbsoluteTriangles && !useScreenSizeInPixels
      ensures options == ResetOptimizeOptions(old(options))
      ensures bakePose == old(bakePose)
      ensures base.targetLODIndex == 0 && !base.replaceSelectedMeshes && base.pivotPosition == Default
      ensures base.window == old(base.window) && base.meshComponents == old(base.meshComponents)
    {
      SetActiveSettingsIndex(0);
      options := ResetOptimizeOptions(options);
      base.ResetSettings();
    }

    /** `GetOptimizeSettings`: the SDK settings for the options and the
      * selected target, with the boundary importance passed on (the
      * conversion as written, `OptimizeSettingsFor`, drops it). */
    function GetOptimizeSettings(): (r: API.OptimizeSettings)
      reads this
      ensures r == OptimizeSettingsWithBoundaryImportance(options, usePercentTriangles, useAbsoluteTriangles, useScreenSizeInPixels)
    {
      OptimizeSettingsWithBoundaryImportance(options, usePercentTriangles, useAbsoluteTriangles, useScreenSizeInPixels)
    }

    /** `ReadSettingsFromJSONObject`: an entry for "Optimize" with a
      * "Settings" object is read over the options; anything else is refused
      * and changes nothing. */
    method ReadSettingsFromJSONObject(json: Option<Object>) returns (ok: bool)
      modifies this
      ensures ok <==> IsValidJSONObject(json, "Optimize") && TryGetObjectField(json.value, "Settings").Some?
      ensures ok ==> options == ReadOptimizeOptions(TryGetObjectField(json.value, "Settings").value, old(options))
      ensures !ok ==> options == old(options)
      ensures settingsCheckBoxIndex == old(settingsCheckBoxIndex) && bakePose == old(bakePose)
      ensures usePercentTriangles == old(usePercentTriangles) && useAbsoluteTriangles == old(useAbsoluteTriangles)
      ensures useScreenSizeInPixels == old(useScreenSizeInPixels)
    {
      if !IsValidJSONObject(json, "Optimize") {
        return false;
      }
      var settings := TryGetObjectField(json.value, "Settings");
      if settings.None? {
        return false;
      }
      options := ReadOptimizeOptions(settings.value, options);
      return true;
    }
  }
}
