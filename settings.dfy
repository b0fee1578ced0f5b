/** `UInstaLODSettings::LoadProfile`, after the profile file has been read
  * and parsed: the checks a JSON profile must pass, then the hand-off of its
  * single mesh operation entry to the first tool that accepts it.
  *
  * The tools are registered sorted by order id: Optimize (1), Remesh (2),
  * Imposterize (3), MaterialMerge (4), OcclusionCull (5), UV (6),
  * MeshToolKit (7) and IsotropicRemesh (8); the settings tool itself comes
  * last (9999) and refuses every entry. Each tool accepts an entry whose
  * "Type" names its operation and that carries a "Settings" object.
  */
module InstaLODSettings {
  import opened Wrappers
  import opened UEString
  import opened Json
  import opened InstaLODBaseTool
  import InstaLODWindow
  import Optimize = InstaLODOptimizeTool
  import Remesh = InstaLODRemeshTool
  import Imposterize = InstaLODImposterizeTool
  import MaterialMerge = InstaLODMaterialMergeTool
  import OcclusionCull = InstaLODOcclusionCullTool
  import UV = InstaLODUVTool
  import MeshToolKit = InstaLODMeshToolKitTool
  import Isotropic = InstaLODIsotropicRemeshTool
  import opened InstaLODBakeBaseTool

  /** The "Type" each registered tool reads, in registration order: the tool
    * at index `i` has order id `i + 1`, so its tab is `i`. */
  const ToolTypes: seq<string> := ["Optimize", "Remesh", "Imposterize", "MeshMerge",
    "OcclusionCull", "UVUnwrap", "MeshToolKit", "IsotropicRemesh"]

  /** The mesh operation entry of a parsed profile (`None` when the file did
    * not parse), or `None` where `LoadProfile` gives up: the "Operation" must
    * be the string "MeshOperation" (compared ignoring case, as `FString`
    * does), its "Entries" an array of exactly one element, and that element
    * must carry a "Type". Non-object values read as empty objects. */
  function ProfileEntry(json: Option<Object>): (r: Option<Object>)
    ensures r.Some? ==> "Type" in r.value
  {
    if json.None? || !HasField(json.value, "Operation") then None
    else
      match TryGetStringField(json.value, "Operation")
      case None => None
      case Some(operation) =>
        if !EqualsIgnoreCase(operation, "MeshOperation") || "MeshOperation" !in json.value then None
        else
          var meshOperation := AsObject(json.value["MeshOperation"]);
          if !HasField(meshOperation, "Entries") then None
          else
            match TryGetArrayField(meshOperation, "Entries")
            case None => None
            case Some(entries) =>
              if |entries| != 1 then None
              else
                var entry := AsObject(entries[0]);
                if !HasField(entry, "Type") then None else Some(entry)
  }

  /** A profile yields an entry exactly when it has this shape; the empty
    * objects that non-object values read as can never pass. */
  lemma ProfileEntryShape(json: Option<Object>, entry: Object)
    ensures ProfileEntry(json) == Some(entry) <==>
      && json.Some?
      && "Operation" in json.value && json.value["Operation"].JString?
      && EqualsIgnoreCase(json.value["Operation"].s, "MeshOperation")
      && "MeshOperation" in json.value && json.value["MeshOperation"].JObject?
      && var meshOperation := json.value["MeshOperation"].fields;
      && "Entries" in meshOperation && meshOperation["Entries"].JArray?
      && |meshOperation["Entries"].items| == 1
      && meshOperation["Entries"].items[0] == JObject(entry)
      && "Type" in entry
  {
    if ProfileEntry(json) == Some(entry) {
      var meshOperationValue := json.value["MeshOperation"];
      assert meshOperationValue.JObject?;
      var entryValue := meshOperationValue.fields["Entries"].items[0];
      assert entryValue.JObject?;
    }
  }

  /** Whether the reader of the tool for `typeName` accepts `entry`. */
  predicate Accepts(typeName: string, entry: Object) {
    IsValidJSONObject(Some(entry), typeName) && TryGetObjectField(entry, "Settings").Some?
  }

  /** The "Settings" object of an entry. */
  function Settings(entry: Object): Object {
    GetObjectField(entry, "Settings")
  }

  /** The first tool, from index `from` on, that accepts `entry`. */
  function FirstAcceptingFrom(entry: Object, from: nat): (r: Option<nat>)
    requires from <= |ToolTypes|
    ensures r.Some? ==> from <= r.value < |ToolTypes| && Accepts(ToolTypes[r.value], entry)
    ensures r.Some? ==> forall i :: from <= i < r.value ==> !Accepts(ToolTypes[i], entry)
    ensures r.None? ==> forall i :: from <= i < |ToolTypes| ==> !Accepts(ToolTypes[i], entry)
    decreases |ToolTypes| - from
  {
    if from == |ToolTypes| then None
    else if Accepts(ToolTypes[from], entry) then Some(from)
    else FirstAcceptingFrom(entry, from + 1)
  }

  /** The index of the tool the dispatch loop stops at, if any. */
  function AcceptingTool(entry: Object): (r: Option<nat>)
    ensures r.Some? ==> r.value < |ToolTypes| && Accepts(ToolTypes[r.value], entry)
    ensures r.None? ==> forall i :: 0 <= i < |ToolTypes| ==> !Accepts(ToolTypes[i], entry)
  {
    FirstAcceptingFrom(entry, 0)
  }

  /** No two tools read the same "Type", even ignoring case. */
  lemma ToolTypesDistinct(i: nat, j: nat)
    requires i < |ToolTypes| && j < |ToolTypes| && i != j
    ensures ToLower(ToolTypes[i]) != ToLower(ToolTypes[j])
  {
    if |ToolTypes[i]| == |ToolTypes[j]| {
      assert ToLower("Optimize")[0] == 'o' && ToLower("UVUnwrap")[0] == 'u';
      assert ToLower("Imposterize")[0] == 'i' && ToLower("MeshToolKit")[0] == 'm';
    } else {
      assert |ToLower(ToolTypes[i])| != |ToLower(ToolTypes[j])|;
    }
  }

  /** At most one tool accepts an entry, so stopping at the first one loses
    * nothing: the accepting tool is exactly the one whose "Type" the entry
    * names. */
  lemma AcceptingToolIsUnique(entry: Object, i: nat)
    requires i < |ToolTypes|
    ensures AcceptingTool(entry) == Some(i) <==> Accepts(ToolTypes[i], entry)
  {
    var r := AcceptingTool(entry);
    if Accepts(ToolTypes[i], entry) && r != Some(i) {
      assert r.Some?;
      ToolTypesDistinct(i, r.value);
    }
  }

  /** The options of every registered tool, the state a profile can change. */
  datatype ToolStates = ToolStates(
    optimize: Optimize.OptimizeOptions,
    remesh: Remesh.RemeshOptions,
    remeshBake: BakeOptions,
    imposterize: Imposterize.ImposterizeOptions,
    imposterizeBake: BakeOptions,
    materialMerge: MaterialMerge.MergeOptions,
    occlusionCull: OcclusionCull.CullOptions,
    uv: UV.UnwrapOptions,
    meshToolKit: MeshToolKit.ToolKitOptions,
    isotropic: Isotropic.IsotropicOptions)

  /** The states after the tool at index `i` has read an entry it accepts:
    * that tool's options change and no other tool's do. */
  function ApplyTool(t: ToolStates, i: nat, entry: Object): ToolStates {
    var s := Settings(entry);
    match i
    case 0 => t.(optimize := Optimize.ReadOptimizeOptions(s, t.optimize))
    case 1 => t.(remesh := Remesh.ReadRemeshOptions(s, t.remesh),
                 remeshBake := Remesh.ReadRemeshBakeOptions(entry, t.remeshBake))
    case 2 => t.(imposterize := Imposterize.ReadImposterizeOptions(s, t.imposterize),
                 imposterizeBake := BakeOptionsFromEntry(Some(entry), t.imposterizeBake))
    case 3 => t.(materialMerge := MaterialMerge.ReadMergeOptions(s, t.materialMerge))
    case 4 => t.(occlusionCull := OcclusionCull.ReadCullOptions(s, t.occlusionCull))
    case 5 => t.(uv := UV.ReadUnwrapOptions(s, t.uv))
    case 6 => t.(meshToolKit := MeshToolKit.ReadToolKitOptions(s, t.meshToolKit))
    case 7 => t.(isotropic := Isotropic.ReadIsotropicOptions(s, t.isotropic))
    case _ => t
  }

  /** The states after a profile entry: the accepting tool, if any, reads it. */
  function ApplyEntry(t: ToolStates, entry: Object): (r: ToolStates)
    ensures AcceptingTool(entry).None? ==> r == t
  {
    match AcceptingTool(entry)
    case None => t
    case Some(i) => ApplyTool(t, i, entry)
  }

  /** An entry reaches only the tool whose "Type" it names: an entry for the
    * UV tool leaves the Optimize tool's options alone, and the reverse. */
  lemma ApplyEntryReachesOneTool(t: ToolStates, entry: Object)
    ensures Accepts("UVUnwrap", entry) ==> ApplyEntry(t, entry).optimize == t.optimize
    ensures Accepts("UVUnwrap", entry) ==> ApplyEntry(t, entry).uv == UV.ReadUnwrapOptions(Settings(entry), t.uv)
    ensures Accepts("Optimize", entry) ==> ApplyEntry(t, entry).uv == t.uv
  {
    if Accepts("UVUnwrap", entry) {
      AcceptingToolIsUnique(entry, 5);
    }
    if Accepts("Optimize", entry) {
      AcceptingToolIsUnique(entry, 0);
    }
  }

  /** The settings tool, holding the registered tools and the window whose
    * tab `LoadProfile` switches. */
  class SettingsTool {
    const base: BaseTool
    const window: InstaLODWindow.Window
    const optimize: Optimize.OptimizeTool
    const remesh: Remesh.RemeshTool
    const imposterize: Imposterize.ImposterizeTool
    const materialMerge: MaterialMerge.MaterialMergeTool
    const occlusionCull: OcclusionCull.OcclusionCullTool
    const uv: UV.UVTool
    const meshToolKit: MeshToolKit.MeshToolKitTool
    const isotropic: Isotropic.IsotropicRemeshTool

    /** Each tool has its own bake state and the order id of its place. */
    predicate Valid() {
      && remesh.bake != imposterize.bake
      && optimize.base.orderId == 1 && remesh.bake.base.orderId == 2
      && imposterize.bake.base.orderId == 3 && materialMerge.base.orderId == 4
      && occlusionCull.base.orderId == 5 && uv.base.orderId == 6
      && meshToolKit.base.orderId == 7 && isotropic.base.orderId == 8
    }

    constructor(window: InstaLODWindow.Window, optimize: Optimize.OptimizeTool, remesh: Remesh.RemeshTool,
                imposterize: Imposterize.ImposterizeTool, materialMerge: MaterialMerge.MaterialMergeTool,
                occlusionCull: OcclusionCull.OcclusionCullTool, uv: UV.UVTool,
                meshToolKit: MeshToolKit.MeshToolKitTool, isotropic: Isotropic.IsotropicRemeshTool)
      requires remesh.bake != imposterize.bake
      requires optimize.base.orderId == 1 && remesh.bake.base.orderId == 2
      requires imposterize.bake.base.orderId == 3 && materialMerge.base.orderId == 4
      requires occlusionCull.base.orderId == 5 && uv.base.orderId == 6
      requires meshToolKit.base.orderId == 7 && isotropic.base.orderId == 8
      ensures Valid() && fresh(base) && base.orderId == 9999
      ensures this.window == window && this.optimize == optimize && this.remesh == remesh
    {
      base := new BaseTool(9999, false);
      this.window := window;
      this.optimize := optimize;
      this.remesh := remesh;
      this.imposterize := imposterize;
      this.materialMerge := materialMerge;
      this.occlusionCull := occlusionCull;
      this.uv := uv;
      this.meshToolKit := meshToolKit;
      this.isotropic := isotropic;
    }

    function States(): ToolStates
      reads optimize, remesh, remesh.bake, imposterize, imposterize.bake
      reads materialMerge, occlusionCull, uv, meshToolKit, isotropic
    {
      ToolStates(optimize.options, remesh.options, remesh.bake.options, imposterize.options,
        imposterize.bake.options, materialMerge.options, occlusionCull.options, uv.options,
        meshToolKit.options, isotropic.options)
    }

    /** The `GetOrderId` of the tool at index `i`. */
    function OrderId(i: nat): (r: int)
      requires Valid() && i < |ToolTypes|
      ensures r == i + 1
    {
      match i
      case 0 => optimize.base.orderId
      case 1 => remesh.bake.base.orderId
      case 2 => imposterize.bake.base.orderId
      case 3 => materialMerge.base.orderId
      case 4 => occlusionCull.base.orderId
      case 5 => uv.base.orderId
      case 6 => meshToolKit.base.orderId
      case 7 => isotropic.base.orderId
    }

    /** `Tool->ReadSettingsFromJSONObject(MeshOperationEntry)` for the tool
      * at index `i`. */
    method ReadSettingsOfTool(i: nat, entry: Object) returns (ok: bool)
      requires Valid() && i < |ToolTypes|
      modifies optimize, remesh, remesh.bake, imposterize, imposterize.bake
      modifies materialMerge, occlusionCull, uv, meshToolKit, isotropic
      ensures ok <==> Accepts(ToolTypes[i], entry)
      ensures States() == if ok then ApplyTool(old(States()), i, entry) else old(States())
    {
      match i
      case 0 => ok := optimize.ReadSettingsFromJSONObject(Some(entry));
      case 1 => ok := remesh.ReadSettingsFromJSONObject(Some(entry));
      case 2 => ok := imposterize.ReadSettingsFromJSONObject(Some(entry));
      case 3 => ok := materialMerge.ReadSettingsFromJSONObject(Some(entry));
      case 4 => ok := occlusionCull.ReadSettingsFromJSONObject(Some(entry));
      case 5 => ok := uv.ReadSettingsFromJSONObject(Some(entry));
      case 6 => ok := meshToolKit.ReadSettingsFromJSONObject(Some(entry));
      case 7 => ok := isotropic.ReadSettingsFromJSONObject(Some(entry));
    }

    /** The dispatch loop of `LoadProfile`: the entry goes to the tools in
      * order until one accepts it, and the window switches to that tool's
      * tab. */
    method Dispatch(entry: Object)
      requires Valid()
      modifies window, optimize, remesh, remesh.bake, imposterize, imposterize.bake
      modifies materialMerge, occlusionCull, uv, meshToolKit, isotropic
      ensures States() == ApplyEntry(old(States()), entry)
      ensures var k := AcceptingTool(entry);
        window.currentTool == (if k.Some? && k.value < window.registeredToolCount then k.value else old(window.currentTool))
      ensures window.selectedComponents == old(window.selectedComponents)
      ensures window.registeredToolCount == old(window.registeredToolCount)
    {
      var i := 0;
      while i < |ToolTypes|
        invariant 0 <= i <= |ToolTypes|
        invariant FirstAcceptingFrom(entry, i) == AcceptingTool(entry)
        invariant States() == old(States())
        invariant window.currentTool == old(window.currentTool)
        invariant window.selectedComponents == old(window.selectedComponents)
        invariant window.registeredToolCount == old(window.registeredToolCount)
      {
        var ok := ReadSettingsOfTool(i, entry);
        if ok {
          window.SetCurrentActiveTabIndex(OrderId(i) - 1);
          return;
        }
        i := i + 1;
      }
    }

    /** `LoadProfile` on the parsed profile (`None` when the file could not
      * be read or parsed): every failed check returns with nothing changed;
      * otherwise the single entry is dispatched. */
    method LoadProfile(json: Option<Object>)
      requires Valid()
      modifies window, optimize, remesh, remesh.bake, imposterize, imposterize.bake
      modifies materialMerge, occlusionCull, uv, meshToolKit, isotropic
      ensures ProfileEntry(json).None? ==> States() == old(States()) && window.currentTool == old(window.currentTool)
      ensures ProfileEntry(json).Some? ==> States() == ApplyEntry(old(States()), ProfileEntry(json).value)
      ensures ProfileEntry(json).Some? ==> var k := AcceptingTool(ProfileEntry(json).value);
        window.currentTool == (if k.Some? && k.value < window.registeredToolCount then k.value else old(window.currentTool))
      ensures window.selectedComponents == old(window.selectedComponents)
    {
      if json.None? {
        return;
      }
      var profile := json.value;
      if !HasField(profile, "Operation") {
        return;
      }
      var operation := TryGetStringField(profile, "Operation");
      if operation.None? || !EqualsIgnoreCase(operation.value, "MeshOperation") {
        return;
      }
      if "MeshOperation" !in profile {
        return;
      }
      var meshOperation := AsObject(profile["MeshOperation"]);
      if !HasField(meshOperation, "Entries") {
        return;
      }
      var entries := TryGetArrayField(meshOperation, "Entries");
      if entries.None? || |entries.value| == 0 || |entries.value| > 1 {
        return;
      }
      var entry := AsObject(entries.value[0]);
      if !HasField(entry, "Type") {
        return;
      }
      Dispatch(entry);
    }
  }
}
