/** `UInstaLODMeshToolKitTool`: geometry repair on the selected meshes
  * (welding, T-junction healing, degenerate face removal, normal repair).
  */
module InstaLODMeshToolKitTool {
  import opened Wrappers
  import opened UEString
  import opened Json
  import API = InstaLODAPI
  import opened InstaLODBaseTool

  datatype NormalHealing = NormalHealingOff | NormalHealingMinimal | NormalHealingDefault

  /** The switch `GetMeshToolKitSettings` applies to the healing mode. */
  function ToSDKNormalHealing(h: NormalHealing): API.NormalHealingMode {
    match h
    case NormalHealingOff => API.HealingOff
    case NormalHealingMinimal => API.HealingMinimal
    case NormalHealingDefault => API.HealingDefault
  }

  function FromSDKNormalHealing(m: API.NormalHealingMode): (h: NormalHealing)
    ensures ToSDKNormalHealing(h) == m
  {
    match m
    case HealingOff => NormalHealingOff
    case HealingMinimal => NormalHealingMinimal
    case HealingDefault => NormalHealingDefault
  }

  /** The switch maps each mode onto the SDK mode of the same name, so it is
    * a bijection. */
  lemma NormalHealingCastIsBijection(h: NormalHealing, k: NormalHealing)
    ensures FromSDKNormalHealing(ToSDKNormalHealing(h)) == h
    ensures ToSDKNormalHealing(h) == ToSDKNormalHealing(k) ==> h == k
  {
  }

  function NormalHealingName(h: NormalHealing): string {
    match h
    case NormalHealingOff => "Off"
    case NormalHealingMinimal => "Minimal"
    case NormalHealingDefault => "Default"
  }

  /** The healing mode a profile string names, ignoring case; an unknown name
    * keeps `current`. */
  function NormalHealingForString(value: string, current: NormalHealing): (r: NormalHealing)
    ensures !EqualsIgnoreCase(value, "Off") && !EqualsIgnoreCase(value, "Minimal") && !EqualsIgnoreCase(value, "Default") ==> r == current
    ensures EqualsIgnoreCase(value, "Off") ==> r == NormalHealingOff
  {
    if EqualsIgnoreCase(value, "Off") then NormalHealingOff
    else if EqualsIgnoreCase(value, "Minimal") then NormalHealingMinimal
    else if EqualsIgnoreCase(value, "Default") then NormalHealingDefault
    else current
  }

  lemma NormalHealingNameRoundTrip(h: NormalHealing, spelled: string, current: NormalHealing)
    requires EqualsIgnoreCase(spelled, NormalHealingName(h))
    ensures NormalHealingForString(spelled, current) == h
  {
    assert ToLower(spelled) == ToLower(NormalHealingName(h));
    assert ToLower("Off")[0] == 'o' && ToLower("Minimal")[0] == 'm' && ToLower("Default")[0] == 'd';
  }

  datatype ToolKitOptions = ToolKitOptions(
    vertexWelding: real,
    vertexWeldingNormalAngle: real,
    weldingBoundaries: bool,
    tJunctionHealing: real,
    removeDegenerateFaces: real,
    fixNonManifold: bool,
    conformNormals: bool,
    conformWindingOrder: bool,
    flipNormals: bool,
    flipWindingOrder: bool,
    fillHoles: bool,
    normalHealingMode: NormalHealing,
    recalculateNormals: bool,
    hardAngleThreshold: real,
    weightedNormals: bool,
    minimumRadius: real,
    minimumFaceArea: real)

  /** `ResetSettings`: every option back to its initialiser except the
    * boundary welding flag, which keeps its value; the base tool's reset is
    * not called. */
  function ResetToolKitOptions(o: ToolKitOptions): (r: ToolKitOptions)
    ensures r.weldingBoundaries == o.weldingBoundaries
    ensures r.vertexWelding == 0.0 && r.vertexWeldingNormalAngle == 80.0 && r.hardAngleThreshold == 80.0
    ensures r.normalHealingMode == NormalHealingOff && r.weightedNormals
  {
    ToolKitOptions(
      vertexWelding := 0.0, vertexWeldingNormalAngle := 80.0,
      weldingBoundaries := o.weldingBoundaries,
      tJunctionHealing := 0.0, removeDegenerateFaces := 0.0,
      fixNonManifold := false, conformNormals := false, conformWindingOrder := false,
      flipNormals := false, flipWindingOrder := false, fillHoles := false,
      normalHealingMode := NormalHealingOff, recalculateNormals := false,
      hardAngleThreshold := 80.0, weightedNormals := true,
      minimumRadius := 0.0, minimumFaceArea := 0.0)
  }

  /** The options after reading the "Settings" object `s` over `o`; the
    * winding order conformation is not read. */
  function ReadToolKitOptions(s: Object, o: ToolKitOptions): (r: ToolKitOptions)
    ensures r.conformWindingOrder == o.conformWindingOrder
    ensures "NormalHealingMode" !in s ==> r.normalHealingMode == o.normalHealingMode
    ensures "NormalHealingMode" in s ==> r.normalHealingMode == NormalHealingForString(GetStringField(s, "NormalHealingMode"), o.normalHealingMode)
  {
    ToolKitOptions(
      vertexWelding := NumberOr(s, "WeldingThreshold", o.vertexWelding),
      vertexWeldingNormalAngle := NumberOr(s, "WeldingNormalAngleThreshold", o.vertexWeldingNormalAngle),
      weldingBoundaries := BoolOr(s, "WeldingBoundaries", o.weldingBoundaries),
      tJunctionHealing := NumberOr(s, "HealTJunctionThreshold", o.tJunctionHealing),
      removeDegenerateFaces := NumberOr(s, "RemoveDegenerateFacesThreshold", o.removeDegenerateFaces),
      fixNonManifold := BoolOr(s, "FixNonManifold", o.fixNonManifold),
      conformNormals := BoolOr(s, "ConformNormals", o.conformNormals),
      conformWindingOrder := o.conformWindingOrder,
      flipNormals := BoolOr(s, "FlipNormals", o.flipNormals),
      flipWindingOrder := BoolOr(s, "FlipWindingOrder", o.flipWindingOrder),
      fillHoles := BoolOr(s, "FillHoles", o.fillHoles),
      normalHealingMode :=
        if HasField(s, "NormalHealingMode") then NormalHealingForString(GetStringField(s, "NormalHealingMode"), o.normalHealingMode)
        else o.normalHealingMode,
      recalculateNormals := BoolOr(s, "RecalculateNormals", o.recalculateNormals),
      hardAngleThreshold := NumberOr(s, "HardAngleThreshold", o.hardAngleThreshold),
      weightedNormals := BoolOr(s, "WeightedNormals", o.weightedNormals),
      minimumRadius := NumberOr(s, "MinimumSubMeshBoundingSphereRadius", o.minimumRadius),
      minimumFaceArea := NumberOr(s, "MinimumFaceArea", o.minimumFaceArea))
  }

  /** Reading is idempotent, and an object without keys changes nothing. */
  lemma ReadToolKitOptionsLaws(s: Object, o: ToolKitOptions)
    ensures ReadToolKitOptions(map[], o) == o
    ensures ReadToolKitOptions(s, ReadToolKitOptions(s, o)) == ReadToolKitOptions(s, o)
  {
  }

  /** `GetMeshToolKitSettings`: every option into the SDK field of the same
    * meaning; the SDK's deterministic flag keeps its default. */
  function MeshToolKitSettingsFor(o: ToolKitOptions): (r: API.MeshToolKitSettings)
    ensures r.deterministic == API.DefaultMeshToolKitSettings.deterministic
  {
    API.MeshToolKitSettings(
      weldingThreshold := o.vertexWelding,
      weldingNormalAngleThreshold := o.vertexWeldingNormalAngle,
      weldingBoundaries := o.weldingBoundaries,
      healTJunctionThreshold := o.tJunctionHealing,
      removeDegenerateFacesThreshold := o.removeDegenerateFaces,
      fixNonManifold := o.fixNonManifold,
      conformNormals := o.conformNormals,
      conformWindingOrder := o.conformWindingOrder,
      flipNormals := o.flipNormals,
      flipWindingOrder := o.flipWindingOrder,
      fillHoles := o.fillHoles,
      normalHealingMode := ToSDKNormalHealing(o.normalHealingMode),
      recalculateNormals := o.recalculateNormals,
      hardAngleThreshold := o.hardAngleThreshold,
      weightedNormals := o.weightedNormals,
      minimumSubMeshBoundingSphereRadius := o.minimumRadius,
      minimumFaceArea := o.minimumFaceArea,
      deterministic := API.DefaultMeshToolKitSettings.deterministic)
  }

  /** The tool's options as the SDK settings hold them: the inverse of the
    * conversion. */
  function ToolKitOptionsOf(r: API.MeshToolKitSettings): ToolKitOptions {
    ToolKitOptions(
      vertexWelding := r.weldingThreshold,
      vertexWeldingNormalAngle := r.weldingNormalAngleThreshold,
      weldingBoundaries := r.weldingBoundaries,
      tJunctionHealing := r.healTJunctionThreshold,
      removeDegenerateFaces := r.removeDegenerateFacesThreshold,
      fixNonManifold := r.fixNonManifold,
      conformNormals := r.conformNormals,
      conformWindingOrder := r.conformWindingOrder,
      flipNormals := r.flipNormals,
      flipWindingOrder := r.flipWindingOrder,
      fillHoles := r.fillHoles,
      normalHealingMode := FromSDKNormalHealing(r.normalHealingMode),
      recalculateNormals := r.recalculateNormals,
      hardAngleThreshold := r.hardAngleThreshold,
      weightedNormals := r.weightedNormals,
      minimumRadius := r.minimumSubMeshBoundingSphereRadius,
      minimumFaceArea := r.minimumFaceArea)
  }

  /** Every option is copied: the options can be read back from the SDK
    * settings, so no option is lost or merged with another. */
  lemma ToolKitSettingsRoundTrip(o: ToolKitOptions)
    ensures ToolKitOptionsOf(MeshToolKitSettingsFor(o)) == o
  {
    NormalHealingCastIsBijection(o.normalHealingMode, o.normalHealingMode);
  }

  /** The reset options reach the SDK as the SDK's own defaults, once the
    * boundary welding flag is off. */
  lemma ResetMatchesSDKDefaults(o: ToolKitOptions)
    requires !o.weldingBoundaries
    ensures MeshToolKitSettingsFor(ResetToolKitOptions(o)) == API.DefaultMeshToolKitSettings
  {
  }

  class MeshToolKitTool {
    const base: BaseTool
    var options: ToolKitOptions
    /** The SDK operation the tool allocated, by handle, if any. */
    var operation: Option<nat>
    /** The handles the tool has handed back to the SDK, in order. */
    var deallocated: seq<nat>

    constructor(config: ToolKitOptions)
      ensures fresh(base) && base.orderId == 7 && !base.freezesTransformsForMultiSelection
      ensures options == config && operation.None? && deallocated == []
    {
      base := new BaseTool(7, false);
      options := config;
      operation := None;
      deallocated := [];
    }

    method ResetSettings()
      modifies this
      ensures options == ResetToolKitOptions(old(options))
      ensures operation == old(operation) && deallocated == old(deallocated)
    {
      options := ResetToolKitOptions(options);
    }

    function GetMeshToolKitSettings(): (r: API.MeshToolKitSettings)
      reads this
      ensures r == MeshToolKitSettingsFor(options)
    {
      MeshToolKitSettingsFor(options)
    }

    /** `ReadSettingsFromJSONObject`: an entry for "MeshToolKit" with a
      * "Settings" object is read over the options; anything else is refused
      * and changes nothing. */
    method ReadSettingsFromJSONObject(json: Option<Object>) returns (ok: bool)
      modifies this
      ensures ok <==> IsValidJSONObject(json, "MeshToolKit") && TryGetObjectField(json.value, "Settings").Some?
      ensures ok ==> options == ReadToolKitOptions(TryGetObjectField(json.value, "Settings").value, old(options))
      ensures !ok ==> options == old(options)
      ensures operation == old(operation) && deallocated == old(deallocated)
    {
      if !IsValidJSONObject(json, "MeshToolKit") {
        return false;
      }
      var settings := TryGetObjectField(json.value, "Settings");
      if settings.None? {
        return false;
      }
      options := ReadToolKitOptions(settings.value, options);
      return true;
    }

    /** The allocation `OnMeshOperationExecute` makes; the source checks that
      * no operation is held. */
    method AllocMeshOperation(handle: nat)
      requires operation.None?
      modifies this
      ensures operation == Some(handle)
      ensures options == old(options) && deallocated == old(deallocated)
    {
      operation := Some(handle);
    }

    /** `DeallocMeshOperation`: a held operation is handed back to the SDK
      * once and forgotten; with none held nothing happens. */
    method DeallocMeshOperation()
      modifies this
      ensures operation.None?
      ensures deallocated == old(deallocated) + (if old(operation).Some? then [old(operation).value] else [])
      ensures options == old(options)
    {
      if operation.Some? {
        deallocated := deallocated + [operation.value];
        operation := None;
      }
    }

    /** Deallocating twice is deallocating once: the second call finds no
      * operation and hands nothing back. */
    method DeallocMeshOperationTwice()
      modifies this
      ensures operation.None?
      ensures deallocated == old(deallocated) + (if old(operation).Some? then [old(operation).value] else [])
    {
      DeallocMeshOperation();
      DeallocMeshOperation();
    }
  }
}
