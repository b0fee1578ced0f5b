/** `UInstaLODRemeshTool`: rebuilds the mesh surface and bakes the original's
  * appearance onto it. Like the optimize tool it keeps a radio choice of the
  * target (a fuzzy face count, a maximum triangle count or a screen size);
  * it is a bake tool, so it holds the bake options too.
  *
  * The tool is modelled by composition: `bake` is its bake-tool part, and
  * `bake.base` its base-tool part.
  */
module InstaLODRemeshTool {
  import opened Wrappers
  import opened UEString
  import opened Json
  import API = InstaLODAPI
  import opened InstaLODBaseTool
  import opened InstaLODBakeBaseTool

  datatype RemeshMode = ModeReconstruct | ModeOptimize | ModeConvexHull | ModeUV
  datatype RemeshFaceCount = FaceCountLowest | FaceCountLow | FaceCountNormal | FaceCountHigh | FaceCountHighest
  datatype RemeshResolution = ResolutionLowest | ResolutionLow | ResolutionNormal | ResolutionHigh | ResolutionVeryHigh | ResolutionExtreme

  /** The SDK enums list the same members in the same order, so the casts
    * are these maps. */
  function ToSDKSurfaceMode(m: RemeshMode): API.RemeshSurfaceMode {
    match m
    case ModeReconstruct => API.Reconstruct
    case ModeOptimize => API.SurfaceOptimize
    case ModeConvexHull => API.ConvexHull
    case ModeUV => API.SurfaceUV
  }

  function ToSDKFaceCount(f: RemeshFaceCount): API.RemeshFaceCountTarget {
    match f
    case FaceCountLowest => API.FaceLowest
    case FaceCountLow => API.FaceLow
    case FaceCountNormal => API.FaceNormal
    case FaceCountHigh => API.FaceHigh
    case FaceCountHighest => API.FaceHighest
  }

  /** Both casts lose nothing. */
  lemma RemeshCastsInjective(m1: RemeshMode, m2: RemeshMode, f1: RemeshFaceCount, f2: RemeshFaceCount)
    ensures ToSDKSurfaceMode(m1) == ToSDKSurfaceMode(m2) ==> m1 == m2
    ensures ToSDKFaceCount(f1) == ToSDKFaceCount(f2) ==> f1 == f2
  {
  }

  function ResolutionOrdinal(r: RemeshResolution): nat {
    match r
    case ResolutionLowest => 0
    case ResolutionLow => 1
    case ResolutionNormal => 2
    case ResolutionHigh => 3
    case ResolutionVeryHigh => 4
    case ResolutionExtreme => 5
  }

  /** The surface construction resolution of each level. */
  function ResolutionPixels(r: RemeshResolution): (n: nat)
    ensures 100 <= n <= 2048
  {
    match r
    case ResolutionLowest => 100
    case ResolutionLow => 150
    case ResolutionNormal => 256
    case ResolutionHigh => 512
    case ResolutionVeryHigh => 1024
    case ResolutionExtreme => 2048
  }

  /** A higher level always asks for a finer surface. */
  lemma ResolutionPixelsIncreasing(r1: RemeshResolution, r2: RemeshResolution)
    ensures ResolutionOrdinal(r1) < ResolutionOrdinal(r2) <==> ResolutionPixels(r1) < ResolutionPixels(r2)
  {
  }

  function RemeshModeName(m: RemeshMode): string {
    match m
    case ModeReconstruct => "Reconstruct"
    case ModeOptimize => "Optimize"
    case ModeConvexHull => "ConvexHull"
    case ModeUV => "UV"
  }

  /** The "SurfaceMode" of a profile: the mode whose name matches ignoring
    * case; an unknown name leaves the mode as it was. */
  function SurfaceModeForString(value: string, current: RemeshMode): (r: RemeshMode)
    ensures r == current || EqualsIgnoreCase(value, RemeshModeName(r))
    ensures (forall m :: !EqualsIgnoreCase(value, RemeshModeName(m))) ==> r == current
  {
    if EqualsIgnoreCase(value, "Reconstruct") then ModeReconstruct
    else if EqualsIgnoreCase(value, "Optimize") then ModeOptimize
    else if EqualsIgnoreCase(value, "ConvexHull") then ModeConvexHull
    else if EqualsIgnoreCase(value, "UV") then ModeUV
    else current
  }

  lemma SurfaceModeNameRoundTrip(m: RemeshMode, spelled: string, current: RemeshMode)
    requires EqualsIgnoreCase(spelled, RemeshModeName(m))
    ensures SurfaceModeForString(spelled, current) == m
  {
    assert ToLower("Reconstruct") == "reconstruct";
    assert ToLower("Optimize") == "optimize";
    assert ToLower("ConvexHull") == "convexhull";
    assert ToLower("UV") == "uv";
  }

  function FaceCountName(f: RemeshFaceCount): string {
    match f
    case FaceCountLowest => "Lowest"
    case FaceCountLow => "Low"
    case FaceCountNormal => "Normal"
    case FaceCountHigh => "High"
    case FaceCountHighest => "Highest"
  }

  /** The "FuzzyFaceCountTarget" of a profile: the level whose name matches
    * ignoring case; an unknown name leaves the target as it was. */
  function FaceCountForString(value: string, current: RemeshFaceCount): (r: RemeshFaceCount)
    ensures r == current || EqualsIgnoreCase(value, FaceCountName(r))
    ensures (forall f :: !EqualsIgnoreCase(value, FaceCountName(f))) ==> r == current
  {
    if EqualsIgnoreCase(value, "Lowest") then FaceCountLowest
    else if EqualsIgnoreCase(value, "Low") then FaceCountLow
    else if EqualsIgnoreCase(value, "Normal") then FaceCountNormal
    else if EqualsIgnoreCase(value, "High") then FaceCountHigh
    else if EqualsIgnoreCase(value, "Highest") then FaceCountHighest
    else current
  }

  lemma FaceCountNameRoundTrip(f: RemeshFaceCount, spelled: string, current: RemeshFaceCount)
    requires EqualsIgnoreCase(spelled, FaceCountName(f))
    ensures FaceCountForString(spelled, current) == f
  {
    assert ToLower("Lowest") == "lowest";
    assert ToLower("Low") == "low";
    assert ToLower("Normal") == "normal";
    assert ToLower("High") == "high";
    assert ToLower("Highest") == "highest";
  }

  /** The three targets of the radio buttons. */
  datatype RemeshTarget = FaceCountTarget | MaximumTrianglesTarget | ScreenSizeTarget

  /** 1 and 2 select the maximum triangles and the screen size; 0 and every
    * other index select the fuzzy face count. */
  function RemeshTargetForIndex(index: int): (t: RemeshTarget)
    ensures t == MaximumTrianglesTarget <==> index == 1
    ensures t == ScreenSizeTarget <==> index == 2
    ensures t == FaceCountTarget <==> index != 1 && index != 2
  {
    if index == 1 then MaximumTrianglesTarget
    else if index == 2 then ScreenSizeTarget
    else FaceCountTarget
  }

  /** The tool's own options (the bake options live in the bake part). */
  datatype RemeshOptions = RemeshOptions(
    remeshMode: RemeshMode,
    fuzzyFaceCountTarget: RemeshFaceCount,
    maximumTriangles: int,
    screenSizeInPixels: int,
    pixelMergeDistance: int,
    automaticTextureSize: bool,
    remeshResolution: RemeshResolution,
    ignoreBackfaces: bool,
    lockBoundaries: bool,
    hardAngleThreshold: real,
    weldingDistance: real,
    gutterSizeInPixels: int,
    unwrapStrategy: UnwrapStrategy,
    unwrapStretchImportance: Importance,
    postProcessLayout: bool,
    shellStitching: bool,
    insertNormalSplits: bool,
    deterministic: bool)

  /** The property initialisers of the header, which `ResetSettings` restores. */
  const DefaultRemeshOptions := RemeshOptions(
    remeshMode := ModeReconstruct,
    fuzzyFaceCountTarget := FaceCountNormal,
    maximumTriangles := 4,
    screenSizeInPixels := 300,
    pixelMergeDistance := 2,
    automaticTextureSize := false,
    remeshResolution := ResolutionNormal,
    ignoreBackfaces := false,
    lockBoundaries := false,
    hardAngleThreshold := 70.0,
    weldingDistance := 0.0,
    gutterSizeInPixels := 5,
    unwrapStrategy := Auto,
    unwrapStretchImportance := Normal,
    postProcessLayout := false,
    shellStitching := true,
    insertNormalSplits := true,
    deterministic := false)

  /** The tool's options after reading the "Settings" object `s` over `o`.
    * The automatic texture size, the resolution, the hard angle and the
    * welding distance are not read. */
  function ReadRemeshOptions(s: Object, o: RemeshOptions): RemeshOptions {
    RemeshOptions(
      remeshMode := if HasField(s, "SurfaceMode") then SurfaceModeForString(GetStringField(s, "SurfaceMode"), o.remeshMode) else o.remeshMode,
      fuzzyFaceCountTarget :=
        if HasField(s, "FuzzyFaceCountTarget") then FaceCountForString(GetStringField(s, "FuzzyFaceCountTarget"), o.fuzzyFaceCountTarget)
        else o.fuzzyFaceCountTarget,
      maximumTriangles := IntegerOr(s, "MaximumTriangles", o.maximumTriangles),
      screenSizeInPixels := IntegerOr(s, "ScreenSizeInPixels", o.screenSizeInPixels),
      pixelMergeDistance := IntegerOr(s, "ScreenSizePixelMergeDistance", o.pixelMergeDistance),
      automaticTextureSize := o.automaticTextureSize,
      remeshResolution := o.remeshResolution,
      ignoreBackfaces := BoolOr(s, "IgnoreBackface", o.ignoreBackfaces),
      lockBoundaries := BoolOr(s, "SurfaceModeOptimizeLockBoundaries", o.lockBoundaries),
      hardAngleThreshold := o.hardAngleThreshold,
      weldingDistance := o.weldingDistance,
      gutterSizeInPixels := IntegerOr(s, "GutterSizeInPixels", o.gutterSizeInPixels),
      unwrapStrategy :=
        if HasField(s, "UnwrapStrategy") then GetUnwrapStrategyValueForString(GetStringField(s, "UnwrapStrategy"))
        else o.unwrapStrategy,
      unwrapStretchImportance :=
        if HasField(s, "StretchImportance") then GetImportanceValueForString(GetStringField(s, "StretchImportance"))
        else o.unwrapStretchImportance,
      postProcessLayout := BoolOr(s, "PostProcessLayout", o.postProcessLayout),
      shellStitching := BoolOr(s, "ShellStitching", o.shellStitching),
      insertNormalSplits := BoolOr(s, "InsertNormalSplits", o.insertNormalSplits),
      deterministic := BoolOr(s, "Deterministic", o.deterministic))
  }

  /** Absent choices keep their values, and the options the reader skips are
    * never changed. */
  lemma ReadRemeshOptionsKeeps(s: Object, o: RemeshOptions)
    ensures var r := ReadRemeshOptions(s, o);
      && ("SurfaceMode" !in s ==> r.remeshMode == o.remeshMode)
      && ("FuzzyFaceCountTarget" !in s ==> r.fuzzyFaceCountTarget == o.fuzzyFaceCountTarget)
      && r.remeshResolution == o.remeshResolution && r.automaticTextureSize == o.automaticTextureSize
      && r.hardAngleThreshold == o.hardAngleThreshold && r.weldingDistance == o.weldingDistance
  {
  }

  /** An unknown surface mode or face count name in a profile leaves the
    * tool's choice as it was. */
  lemma UnknownNamesKeepChoice(s: Object, o: RemeshOptions)
    requires "SurfaceMode" in s && forall m :: !EqualsIgnoreCase(GetStringField(s, "SurfaceMode"), RemeshModeName(m))
    requires "FuzzyFaceCountTarget" in s && forall f :: !EqualsIgnoreCase(GetStringField(s, "FuzzyFaceCountTarget"), FaceCountName(f))
    ensures ReadRemeshOptions(s, o).remeshMode == o.remeshMode
    ensures ReadRemeshOptions(s, o).fuzzyFaceCountTarget == o.fuzzyFaceCountTarget
  {
  }

  /** Reading the same object twice is reading it once. */
  lemma ReadRemeshOptionsIdempotent(s: Object, o: RemeshOptions)
    ensures ReadRemeshOptions(s, ReadRemeshOptions(s, o)) == ReadRemeshOptions(s, o)
  {
  }

  /** `GetRemeshingSettings`: the SDK defaults with the tool's options, the
    * selected target only (the pixel merge distance and the automatic
    * texture size go with the screen size), the resolution level as pixels,
    * the CPU bake engine and the bake output of the bake part. */
  function RemeshingSettingsFor(o: RemeshOptions, useFaceCount: bool, useMaximum: bool, useScreenSize: bool,
                                bakeOutput: API.BakeOutputSettings, alphaMaskThreshold: real): (r: API.RemeshingSettings)
    ensures r.resolution == ResolutionPixels(o.remeshResolution)
    ensures r.surfaceMode == ToSDKSurfaceMode(o.remeshMode)
    ensures useFaceCount ==> r.faceCountTarget == ToSDKFaceCount(o.fuzzyFaceCountTarget)
    ensures !useFaceCount ==> r.faceCountTarget == API.DefaultRemeshingSettings.faceCountTarget
    ensures !useFaceCount && useMaximum ==> r.maximumTriangles == API.UInt32(o.maximumTriangles)
    ensures !(!useFaceCount && useMaximum) ==> r.maximumTriangles == API.DefaultRemeshingSettings.maximumTriangles
    ensures !useFaceCount && !useMaximum && useScreenSize ==>
      && r.screenSizeInPixels == API.UInt32(o.screenSizeInPixels)
      && r.screenSizePixelMergeDistance == API.UInt32(o.pixelMergeDistance)
      && r.screenSizeInPixelsAutomaticTextureSize == o.automaticTextureSize
    ensures !(!useFaceCount && !useMaximum && useScreenSize) ==>
      && r.screenSizeInPixels == API.DefaultRemeshingSettings.screenSizeInPixels
      && r.screenSizePixelMergeDistance == API.DefaultRemeshingSettings.screenSizePixelMergeDistance
      && r.screenSizeInPixelsAutomaticTextureSize == API.DefaultRemeshingSettings.screenSizeInPixelsAutomaticTextureSize
    ensures r.bakeEngine == API.CPU && r.bakeOutput == bakeOutput && r.alphaMaskThreshold == alphaMaskThreshold
    ensures r.distinctSurfaceConstructionPerMesh == API.DefaultRemeshingSettings.distinctSurfaceConstructionPerMesh
  {
    var d := API.DefaultRemeshingSettings;
    var withTarget :=
      if useFaceCount then d.(faceCountTarget := ToSDKFaceCount(o.fuzzyFaceCountTarget))
      else if useMaximum then d.(maximumTriangles := API.UInt32(o.maximumTriangles))
      else if useScreenSize then d.(
        screenSizeInPixels := API.UInt32(o.screenSizeInPixels),
        screenSizePixelMergeDistance := API.UInt32(o.pixelMergeDistance),
        screenSizeInPixelsAutomaticTextureSize := o.automaticTextureSize)
      else d;
    withTarget.(
      surfaceMode := ToSDKSurfaceMode(o.remeshMode),
      bakeEngine := API.CPU,
      resolution := ResolutionPixels(o.remeshResolution),
      surfaceConstructionIgnoreBackface := o.ignoreBackfaces,
      hardAngleThreshold := o.hardAngleThreshold,
      weldDistance := o.weldingDistance,
      gutterSizeInPixels := API.UInt32(o.gutterSizeInPixels),
      unwrapStrategy := ToSDKUnwrapStrategy(o.unwrapStrategy),
      stretchImportance := ToSDKImportance(o.unwrapStretchImportance),
      surfaceModeOptimizeLockBoundaries := o.lockBoundaries,
      postProcessLayout := o.postProcessLayout,
      shellStitching := o.shellStitching,
      insertNormalSplits := o.insertNormalSplits,
      alphaMaskThreshold := alphaMaskThreshold,
      deterministic := o.deterministic,
      bakeOutput := bakeOutput)
  }

  /** The merge distance and automatic texture size reach the SDK only when
    * the screen size target is selected. */
  lemma ScreenSizeOptionsOnlyForScreenSize(o: RemeshOptions, index: int, bakeOutput: API.BakeOutputSettings, alpha: real)
    requires RemeshTargetForIndex(index) != ScreenSizeTarget
    ensures var t := RemeshTargetForIndex(index);
      var r := RemeshingSettingsFor(o, t == FaceCountTarget, t == MaximumTrianglesTarget, t == ScreenSizeTarget, bakeOutput, alpha);
      && r.screenSizePixelMergeDistance == API.DefaultRemeshingSettings.screenSizePixelMergeDistance
      && r.screenSizeInPixelsAutomaticTextureSize == API.DefaultRemeshingSettings.screenSizeInPixelsAutomaticTextureSize
      && r.screenSizeInPixels == API.DefaultRemeshingSettings.screenSizeInPixels
  {
  }

  /** The bake options after the Remesh reader accepts `entry`: the alpha
    * mask threshold from the "Settings" object, then the bake base tool's
    * reading of the whole entry. */
  function ReadRemeshBakeOptions(entry: Object, b: BakeOptions): BakeOptions {
    var s := GetObjectField(entry, "Settings");
    BakeOptionsFromEntry(Some(entry), b.(alphaMaskThreshold := NumberOr(s, "AlphaMaskThreshold", b.alphaMaskThreshold)))
  }

  class RemeshTool {
    const bake: BakeBaseTool
    var settingsCheckBoxIndex: int
    var useFaceCountTarget: bool
    var useMaximumTriangles: bool
    var useScreenSizeInPixels: bool
    var options: RemeshOptions

    /** Exactly the flag of the selected target is set. */
    predicate FlagsMatchIndex()
      reads this
    {
      var t := RemeshTargetForIndex(settingsCheckBoxIndex);
      && (useFaceCountTarget <==> t == FaceCountTarget)
      && (useMaximumTriangles <==> t == MaximumTrianglesTarget)
      && (useScreenSizeInPixels <==> t == ScreenSizeTarget)
    }

    /** The constructor: the options and radio index come from the saved
      * configuration (the header's initialisers when there is none); the
      * flags are set from the index. */
    constructor(config: RemeshOptions, checkBoxIndex: int)
      ensures fresh(bake) && fresh(bake.base)
      ensures bake.base.orderId == 2 && bake.base.freezesTransformsForMultiSelection
      ensures bake.options == DefaultBakeOptions
      ensures options == config && settingsCheckBoxIndex == checkBoxIndex && FlagsMatchIndex()
    {
      bake := new BakeBaseTool(2, true);
      options := config;
      settingsCheckBoxIndex := checkBoxIndex;
      new;
      SetActiveSettingsIndex(checkBoxIndex);
    }

    /** `SetActiveSettingsIndex`: stores the index and sets exactly the flag
      * of the target it selects (saving the configuration is not modelled). */
    method SetActiveSettingsIndex(newIndex: int)
      modifies this
      ensures settingsCheckBoxIndex == newIndex && FlagsMatchIndex()
      ensures (useFaceCountTarget && !useMaximumTriangles && !useScreenSizeInPixels)
           || (!useFaceCountTarget && useMaximumTriangles && !useScreenSizeInPixels)
           || (!useFaceCountTarget && !useMaximumTriangles && useScreenSizeInPixels)
      ensures options == old(options)
    {
      settingsCheckBoxIndex := newIndex;
      if newIndex == 0 {
        useFaceCountTarget, useMaximumTriangles, useScreenSizeInPixels := true, false, false;
      } else if newIndex == 1 {
        useFaceCountTarget, useMaximumTriangles, useScreenSizeInPixels := false, true, false;
      } else if newIndex == 2 {
        useFaceCountTarget, useMaximumTriangles, useScreenSizeInPixels := false, false, true;
      } else {
        useFaceCountTarget, useMaximumTriangles, useScreenSizeInPixels := true, false, false;
      }
    }

    /** `ResetSettings`: the header's defaults, the fuzzy face count target,
      * then the bake tool's reset. */
    method ResetSettings()
      modifies this, bake, bake.base
      ensures options == DefaultRemeshOptions
      ensures settingsCheckBoxIndex == 0 && useFaceCountTarget && !useMaximumTriangles && !useScreenSizeInPixels
      ensures bake.options == DefaultBakeOptions.(reflectance := old(bake.options.reflectance))
      ensures bake.base.targetLODIndex == 0 && !bake.base.replaceSelectedMeshes
      ensures bake.base.meshComponents == old(bake.base.meshComponents)
    {
      options := DefaultRemeshOptions;
      SetActiveSettingsIndex(0);
      bake.ResetSettings();
    }

    /** `GetRemeshingSettings` for the tool's current state. */
    function GetRemeshingSettings(): (r: API.RemeshingSettings)
      reads this, bake
      ensures r == RemeshingSettingsFor(options, useFaceCountTarget, useMaximumTriangles, useScreenSizeInPixels,
                                        bake.GetBakeOutputSettings(), bake.options.alphaMaskThreshold)
    {
      RemeshingSettingsFor(options, useFaceCountTarget, useMaximumTriangles, useScreenSizeInPixels,
                           bake.GetBakeOutputSettings(), bake.options.alphaMaskThreshold)
    }

    /** `ReadSettingsFromJSONObject`: an entry for "Remesh" with a "Settings"
      * object is read over the options; the alpha mask threshold there sets
      * the bake part's; then the bake reader is handed the entry (the
      * source hands it the "Settings" object, see
      * `BakeOptionsFromSettingsAsWritten`) and its answer is ignored.
      * Anything else is refused and changes nothing. */
    method ReadSettingsFromJSONObject(json: Option<Object>) returns (ok: bool)
      modifies this, bake
      ensures ok <==> IsValidJSONObject(json, "Remesh") && TryGetObjectField(json.value, "Settings").Some?
      ensures ok ==> var s := TryGetObjectField(json.value, "Settings").value;
        && options == ReadRemeshOptions(s, old(options))
        && bake.options == ReadRemeshBakeOptions(json.value, old(bake.options))
      ensures !ok ==> options == old(options) && bake.options == old(bake.options)
      ensures bake.materialSettings == old(bake.materialSettings)
      ensures settingsCheckBoxIndex == old(settingsCheckBoxIndex)
      ensures useFaceCountTarget == old(useFaceCountTarget) && useMaximumTriangles == old(useMaximumTriangles)
      ensures useScreenSizeInPixels == old(useScreenSizeInPixels)
    {
      if !IsValidJSONObject(json, "Remesh") {
        return false;
      }
      var settings := TryGetObjectField(json.value, "Settings");
      if settings.None? {
        return false;
      }
      var s := settings.value;
      options := ReadRemeshOptions(s, options);
      if HasField(s, "AlphaMaskThreshold") {
        bake.options := bake.options.(alphaMaskThreshold := GetNumberField(s, "AlphaMaskThreshold"));
      }
      var _ := bake.ReadSettingsFromJSONObject(json);
      return true;
    }
  }
}
