/** `UInstaLODOcclusionCullTool`: removes (or marks) the faces of the
  * selected meshes that cannot be seen, either from inside the assembly or
  * from the selected cameras.
  *
  * The tool's mode and culling strategy list the SDK's values in the same
  * order, so the tool holds the SDK's own types; its data usage lists only
  * the first two of the SDK's four and is a type of its own.
  */
module InstaLODOcclusionCullTool {
  import opened Wrappers
  import opened UEString
  import opened Json
  import API = InstaLODAPI
  import opened InstaLODWindow
  import opened InstaLODBaseTool

  datatype CullDataUsage = DataRemoveGeometry | DataWriteWedgeColors

  /** The enum cast, by number, onto the SDK's data usage. */
  function ToSDKDataUsage(u: CullDataUsage): (r: API.OcclusionCullDataUsage)
    ensures u == DataRemoveGeometry <==> r == API.RemoveGeometry
  {
    API.DataUsageFromOrdinal(match u case DataRemoveGeometry => 0 case DataWriteWedgeColors => 1)
  }

  /** The tool's two usages land on the SDK's first two, so the tool never
    * asks for optimizer weights. */
  lemma DataUsageCastRange(u: CullDataUsage)
    ensures ToSDKDataUsage(u) == API.RemoveGeometry || ToSDKDataUsage(u) == API.WriteWedgeColors
    ensures ToSDKDataUsage(u) == API.WriteWedgeColors <==> u == DataWriteWedgeColors
  {
  }

  datatype CullOptions = CullOptions(
    mode: API.OcclusionCullMode,
    cullingStrategy: API.OcclusionCullingStrategy,
    dataUsage: CullDataUsage,
    resolution: int,
    precision: Importance,
    adjacencyDepth: int,
    deterministic: bool)

  /** The property initialisers of the header, which `ResetSettings` also
    * restores. */
  const DefaultCullOptions := CullOptions(
    mode := API.AutomaticInterior, cullingStrategy := API.Face,
    dataUsage := DataRemoveGeometry, resolution := 1024, precision := Normal,
    adjacencyDepth := 5, deterministic := false)

  /** The data usage a profile string names, ignoring case; an unknown name
    * keeps `current`. */
  function DataUsageForString(value: string, current: CullDataUsage): (r: CullDataUsage)
    ensures EqualsIgnoreCase(value, "RemoveGeometry") ==> r == DataRemoveGeometry
    ensures !EqualsIgnoreCase(value, "RemoveGeometry") && EqualsIgnoreCase(value, "WriteWedgeColors") ==> r == DataWriteWedgeColors
    ensures !EqualsIgnoreCase(value, "RemoveGeometry") && !EqualsIgnoreCase(value, "WriteWedgeColors") ==> r == current
  {
    if EqualsIgnoreCase(value, "RemoveGeometry") then DataRemoveGeometry
    else if EqualsIgnoreCase(value, "WriteWedgeColors") then DataWriteWedgeColors
    else current
  }

  function DataUsageName(u: CullDataUsage): string {
    match u
    case DataRemoveGeometry => "RemoveGeometry"
    case DataWriteWedgeColors => "WriteWedgeColors"
  }

  lemma DataUsageNameRoundTrip(u: CullDataUsage, spelled: string, current: CullDataUsage)
    requires EqualsIgnoreCase(spelled, DataUsageName(u))
    ensures DataUsageForString(spelled, current) == u
  {
    assert ToLower(spelled) == ToLower(DataUsageName(u));
    assert ToLower("RemoveGeometry")[0] == 'r' && ToLower("WriteWedgeColors")[0] == 'w';
  }

  /** The culling strategy a profile string names, ignoring case; an unknown
    * name keeps `current`. */
  function CullingStrategyForString(value: string, current: API.OcclusionCullingStrategy): (r: API.OcclusionCullingStrategy)
    ensures (!EqualsIgnoreCase(value, "SubMeshByFaceAdjacency") && !EqualsIgnoreCase(value, "SubMeshByFaceSubMeshIndices")
             && !EqualsIgnoreCase(value, "Face")) ==> r == current
  {
    if EqualsIgnoreCase(value, "SubMeshByFaceAdjacency") then API.SubMeshByFaceAdjacency
    else if EqualsIgnoreCase(value, "SubMeshByFaceSubMeshIndices") then API.SubMeshByFaceSubMeshIndices
    else if EqualsIgnoreCase(value, "Face") then API.Face
    else current
  }

  function CullingStrategyName(s: API.OcclusionCullingStrategy): string {
    match s
    case Face => "Face"
    case SubMeshByFaceSubMeshIndices => "SubMeshByFaceSubMeshIndices"
    case SubMeshByFaceAdjacency => "SubMeshByFaceAdjacency"
  }

  lemma CullingStrategyNameRoundTrip(s: API.OcclusionCullingStrategy, spelled: string, current: API.OcclusionCullingStrategy)
    requires EqualsIgnoreCase(spelled, CullingStrategyName(s))
    ensures CullingStrategyForString(spelled, current) == s
  {
    var lower := ToLower(spelled);
    assert lower == ToLower(CullingStrategyName(s));
    assert |ToLower("Face")| == 4;
    assert |ToLower("SubMeshByFaceAdjacency")| == 22;
    assert |ToLower("SubMeshByFaceSubMeshIndices")| == 27;
  }

  /** The mode a profile string names, ignoring case; an unknown name keeps
    * `current`. */
  function CullModeForString(value: string, current: API.OcclusionCullMode): (r: API.OcclusionCullMode)
    ensures EqualsIgnoreCase(value, "AutomaticInterior") ==> r == API.AutomaticInterior
    ensures !EqualsIgnoreCase(value, "AutomaticInterior") && EqualsIgnoreCase(value, "CameraBased") ==> r == API.CameraBased
    ensures !EqualsIgnoreCase(value, "AutomaticInterior") && !EqualsIgnoreCase(value, "CameraBased") ==> r == current
  {
    if EqualsIgnoreCase(value, "AutomaticInterior") then API.AutomaticInterior
    else if EqualsIgnoreCase(value, "CameraBased") then API.CameraBased
    else current
  }

  function CullModeName(m: API.OcclusionCullMode): string {
    match m
    case AutomaticInterior => "AutomaticInterior"
    case CameraBased => "CameraBased"
  }

  lemma CullModeNameRoundTrip(m: API.OcclusionCullMode, spelled: string, current: API.OcclusionCullMode)
    requires EqualsIgnoreCase(spelled, CullModeName(m))
    ensures CullModeForString(spelled, current) == m
  {
    assert ToLower(spelled) == ToLower(CullModeName(m));
    assert ToLower("AutomaticInterior")[0] == 'a' && ToLower("CameraBased")[0] == 'c';
  }

  /** The options after reading the "Settings" object `s` over `o`. */
  function ReadCullOptions(s: Object, o: CullOptions): (r: CullOptions)
    ensures "Mode" !in s ==> r.mode == o.mode
    ensures "Mode" in s ==> r.mode == CullModeForString(GetStringField(s, "Mode"), o.mode)
    ensures "DataUsage" !in s ==> r.dataUsage == o.dataUsage
    ensures "CullingStrategy" !in s ==> r.cullingStrategy == o.cullingStrategy
  {
    CullOptions(
      mode := if HasField(s, "Mode") then CullModeForString(GetStringField(s, "Mode"), o.mode) else o.mode,
      cullingStrategy :=
        if HasField(s, "CullingStrategy") then CullingStrategyForString(GetStringField(s, "CullingStrategy"), o.cullingStrategy)
        else o.cullingStrategy,
      dataUsage :=
        if HasField(s, "DataUsage") then DataUsageForString(GetStringField(s, "DataUsage"), o.dataUsage)
        else o.dataUsage,
      resolution := IntegerOr(s, "Resolution", o.resolution),
      precision := ImportanceOr(s, "AutomaticPrecision", o.precision),
      adjacencyDepth := IntegerOr(s, "AdjacencyDepth", o.adjacencyDepth),
      deterministic := BoolOr(s, "Deterministic", o.deterministic))
  }

  /** Reading is idempotent, and an object without keys changes nothing. */
  lemma ReadCullOptionsLaws(s: Object, o: CullOptions)
    ensures ReadCullOptions(map[], o) == o
    ensures ReadCullOptions(s, ReadCullOptions(s, o)) == ReadCullOptions(s, o)
  {
  }

  /** `GetOcclusionCullSettings`: the face threshold is always 1 and back
    * faces are always ignored; the deterministic flag is not passed on, so
    * the remaining fields keep the SDK's defaults. */
  function OcclusionCullSettingsFor(o: CullOptions): (r: API.OcclusionCullSettings)
    ensures r.mode == o.mode && r.cullingStrategy == o.cullingStrategy
    ensures r.dataUsage == ToSDKDataUsage(o.dataUsage)
    ensures FromSDKImportance(r.automaticPrecision) == o.precision
    ensures r.resolution == API.UInt32(o.resolution) && r.adjacencyDepth == API.UInt32(o.adjacencyDepth)
    ensures r.subMeshVisbilityFaceThreshold == 1 && r.ignoreBackface
    ensures r.alphaMaskThreshold == API.DefaultOcclusionCullSettings.alphaMaskThreshold
    ensures r.optimizerWeight == API.DefaultOcclusionCullSettings.optimizerWeight
    ensures r.deterministic == API.DefaultOcclusionCullSettings.deterministic
  {
    ImportanceCastIsBijection(o.precision, Normal);
    API.DefaultOcclusionCullSettings.(
      mode := o.mode,
      cullingStrategy := o.cullingStrategy,
      dataUsage := ToSDKDataUsage(o.dataUsage),
      automaticPrecision := ToSDKImportance(o.precision),
      resolution := API.UInt32(o.resolution),
      adjacencyDepth := API.UInt32(o.adjacencyDepth),
      subMeshVisbilityFaceThreshold := 1,
      ignoreBackface := true)
  }

  /** The deterministic flag the tool reads and resets never reaches the
    * SDK: two tools that differ only in it produce the same settings. */
  lemma DeterministicNotPassedOn(o: CullOptions)
    ensures OcclusionCullSettingsFor(o.(deterministic := true)) == OcclusionCullSettingsFor(o.(deterministic := false))
  {
  }

  datatype CullError = CullBaseError(reason: OperationError) | NoCameraSelected

  /** Why the operation cannot run, if it cannot: the base tool's reasons
    * first, then a camera-based cull without a camera. */
  function OcclusionCullFailure(mode: API.OcclusionCullMode, baseFailure: Option<OperationError>, cameraCount: nat): (r: Option<CullError>)
    ensures baseFailure.Some? ==> r == Some(CullBaseError(baseFailure.value))
    ensures baseFailure.None? ==> (r.Some? <==> mode == API.CameraBased && cameraCount == 0)
  {
    if baseFailure.Some? then Some(CullBaseError(baseFailure.value))
    else if mode == API.CameraBased && cameraCount == 0 then Some(NoCameraSelected)
    else None
  }

  class OcclusionCullTool {
    const base: BaseTool
    var options: CullOptions

    constructor(config: CullOptions)
      ensures fresh(base) && base.orderId == 5 && !base.freezesTransformsForMultiSelection
      ensures base.window == null && options == config
    {
      base := new BaseTool(5, false);
      options := config;
    }

    /** `ResetSettings`: every option back to its default, then the base
      * tool's reset. */
    method ResetSettings()
      modifies this, base
      ensures options == DefaultCullOptions
      ensures options.resolution == 1024 && options.adjacencyDepth == 5
      ensures base.targetLODIndex == 0 && !base.replaceSelectedMeshes && base.pivotPosition == Default
      ensures base.window == old(base.window) && base.meshComponents == old(base.meshComponents)
    {
      options := DefaultCullOptions;
      base.ResetSettings();
    }

    function GetOcclusionCullSettings(): (r: API.OcclusionCullSettings)
      reads this
      ensures r == OcclusionCullSettingsFor(options)
    {
      OcclusionCullSettingsFor(options)
    }

    /** `IsMeshOperationExecutable`: not without a window; otherwise the base
      * tool's checks, then at least one selected camera for a camera-based
      * cull. */
    method IsMeshOperationExecutable(errorTextRequested: bool, dialogYes: bool)
      returns (ok: bool, errorText: Option<CullError>)
      requires base.Valid()
      ensures base.window == null ==> !ok && errorText.None?
      ensures base.window != null ==>
        var failure := OcclusionCullFailure(options.mode,
          OperationFailure(base.meshComponents, base.freezesTransformsForMultiSelection, base.resultUsage, errorTextRequested, dialogYes),
          |Filter(base.window.selectedComponents, IncludedCamera)|);
        && (ok <==> failure.None?)
        && errorText == (if errorTextRequested then failure else None)
    {
      var w := base.window;
      if w == null {
        return false, None;
      }
      var baseOk, baseError, _ := base.IsMeshOperationExecutable(errorTextRequested, dialogYes);
      if !baseOk {
        return false, if errorTextRequested then Some(CullBaseError(baseError.value)) else None;
      }
      if options.mode == API.CameraBased {
        var cameras := w.GetNumCameraComponents();
        if cameras == 0 {
          return false, if errorTextRequested then Some(NoCameraSelected) else None;
        }
      }
      return true, None;
    }

    /** `ReadSettingsFromJSONObject`: an entry for "OcclusionCull" with a
      * "Settings" object is read over the options; anything else is refused
      * and changes nothing. */
    method ReadSettingsFromJSONObject(json: Option<Object>) returns (ok: bool)
      modifies this
      ensures ok <==> IsValidJSONObject(json, "OcclusionCull") && TryGetObjectField(json.value, "Settings").Some?
      ensures ok ==> options == ReadCullOptions(TryGetObjectField(json.value, "Settings").value, old(options))
      ensures !ok ==> options == old(options)
    {
      if !IsValidJSONObject(json, "OcclusionCull") {
        return false;
      }
      var settings := TryGetObjectField(json.value, "Settings");
      if settings.None? {
        return false;
      }
      options := ReadCullOptions(settings.value, options);
      return true;
    }
  }
}
