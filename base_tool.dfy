/** `UInstaLODBaseTool`: the state every tool of the plugin window shares (the
  * selection it works on, where results go) and the helpers every tool uses
  * to read a settings profile: the importance and unwrap strategy parsers and
  * the profile entry check.
  *
  * The engine's class hierarchy is modelled by composition: each concrete
  * tool holds its `BaseTool` and the overridden virtuals the base consults
  * (`IsFreezingTransformsForMultiSelection`, `GetOrderId`) are constants of it.
  */
module InstaLODBaseTool {
  import opened Wrappers
  import opened UEString
  import opened Json
  import API = InstaLODAPI
  import opened InstaLODTypes
  import opened InstaLODWindow

  // ---------------------------------------------------------------------
  // The plugin's own enumerations, in declaration order

  datatype Importance = ImportanceOff | Lowest | Low | Normal | High | Highest

  datatype TextureSize = Size128 | Size256 | Size512 | Size1024 | Size2K | Size4K | Size8K | Size16K

  datatype ResultUsage = AppendToLOD | ReplaceLOD | NewAsset

  datatype UnwrapStrategy = Organic | HardSurfaceAngle | HardSurfaceAxial | Auto

  datatype PivotPosition = Default | Center | Top | Bottom | Custom | CustomLimited

  /** The plugin offers no 8x or 16x super sampling. */
  datatype SuperSampling = SuperSamplingNone | X2 | X4

  function SuperSamplingOrdinal(s: SuperSampling): (n: nat)
    ensures n < 3
  {
    match s
    case SuperSamplingNone => 0
    case X2 => 1
    case X4 => 2
  }

  /** The enum cast to the SDK's super sampling, which goes by number: each
    * plugin level lands on the SDK level of the same name. */
  function ToSDKSuperSampling(s: SuperSampling): (r: API.SuperSampling)
    ensures s == SuperSamplingNone ==> r == API.SSNone
    ensures s == X2 ==> r == API.X2
    ensures s == X4 ==> r == API.X4
  {
    API.SuperSamplingFromOrdinal(SuperSamplingOrdinal(s))
  }

  /** The plugin's importance levels list the SDK's in the same order, so the
    * enum cast the tools apply is this bijection. */
  function ToSDKImportance(i: Importance): (r: API.MeshFeatureImportance)
  {
    match i
    case ImportanceOff => API.Off
    case Lowest => API.Lowest
    case Low => API.Low
    case Normal => API.Normal
    case High => API.High
    case Highest => API.Highest
  }

  function FromSDKImportance(r: API.MeshFeatureImportance): (i: Importance)
    ensures ToSDKImportance(i) == r
  {
    match r
    case Off => ImportanceOff
    case Lowest => Lowest
    case Low => Low
    case Normal => Normal
    case High => High
    case Highest => Highest
  }

  lemma ImportanceCastIsBijection(i: Importance, j: Importance)
    ensures FromSDKImportance(ToSDKImportance(i)) == i
    ensures ToSDKImportance(i) == ToSDKImportance(j) ==> i == j
  {
  }

  // ---------------------------------------------------------------------
  // Parsing settings profile strings

  /** The profile spelling of each importance level. */
  function ImportanceName(i: Importance): string {
    match i
    case ImportanceOff => "Off"
    case Lowest => "Lowest"
    case Low => "Low"
    case Normal => "Normal"
    case High => "High"
    case Highest => "Highest"
  }

  /** `GetImportanceValueForString`: the level whose name matches ignoring
    * case; anything else reads as Normal. */
  function GetImportanceValueForString(value: string): (r: Importance)
    ensures EqualsIgnoreCase(value, ImportanceName(r)) || r == Normal
    ensures (forall i :: !EqualsIgnoreCase(value, ImportanceName(i))) ==> r == Normal
  {
    if EqualsIgnoreCase(value, "Off") then ImportanceOff
    else if EqualsIgnoreCase(value, "Lowest") then Lowest
    else if EqualsIgnoreCase(value, "Low") then Low
    else if EqualsIgnoreCase(value, "Normal") then Normal
    else if EqualsIgnoreCase(value, "High") then High
    else if EqualsIgnoreCase(value, "Highest") then Highest
    else Normal
  }

  /** Every level's own name, in any letter case, parses back to that level. */
  lemma ImportanceNameRoundTrip(i: Importance, spelled: string)
    requires EqualsIgnoreCase(spelled, ImportanceName(i))
    ensures GetImportanceValueForString(spelled) == i
  {
    var lower := ToLower(spelled);
    assert lower == ToLower(ImportanceName(i));
    assert ToLower("Off") == "off";
    assert ToLower("Lowest") == "lowest";
    assert ToLower("Low") == "low";
    assert ToLower("Normal") == "normal";
    assert ToLower("High") == "high";
    assert ToLower("Highest") == "highest";
  }

  /** An importance option read from a profile string, when present. */
  function ImportanceOr(s: Object, key: string, current: Importance): (r: Importance)
    ensures key !in s ==> r == current
    ensures key in s ==> r == GetImportanceValueForString(GetStringField(s, key))
  {
    if HasField(s, key) then GetImportanceValueForString(GetStringField(s, key)) else current
  }

  function UnwrapStrategyName(s: UnwrapStrategy): string {
    match s
    case Organic => "Organic"
    case HardSurfaceAngle => "HardSurfaceAngle"
    case HardSurfaceAxial => "HardSurfaceAxial"
    case Auto => "Auto"
  }

  /** The plugin's unwrap strategies list the SDK's in the same order, so
    * the cast is this bijection. */
  function ToSDKUnwrapStrategy(s: UnwrapStrategy): API.UnwrapStrategy {
    match s
    case Organic => API.Organic
    case HardSurfaceAngle => API.HardSurfaceAngle
    case HardSurfaceAxial => API.HardSurfaceAxial
    case Auto => API.Auto
  }

  lemma UnwrapStrategyCastInjective(s: UnwrapStrategy, t: UnwrapStrategy)
    ensures ToSDKUnwrapStrategy(s) == ToSDKUnwrapStrategy(t) ==> s == t
  {
  }

  /** `GetUnwrapStrategyValueForString`: the strategy whose name matches
    * ignoring case; anything else reads as Auto. */
  function GetUnwrapStrategyValueForString(value: string): (r: UnwrapStrategy)
    ensures EqualsIgnoreCase(value, UnwrapStrategyName(r)) || r == Auto
    ensures (forall s :: !EqualsIgnoreCase(value, UnwrapStrategyName(s))) ==> r == Auto
  {
    if EqualsIgnoreCase(value, "Auto") then Auto
    else if EqualsIgnoreCase(value, "Organic") then Organic
    else if EqualsIgnoreCase(value, "HardSurfaceAngle") then HardSurfaceAngle
    else if EqualsIgnoreCase(value, "HardSurfaceAxial") then HardSurfaceAxial
    else Auto
  }

  lemma UnwrapStrategyNameRoundTrip(s: UnwrapStrategy, spelled: string)
    requires EqualsIgnoreCase(spelled, UnwrapStrategyName(s))
    ensures GetUnwrapStrategyValueForString(spelled) == s
  {
    // The names differ in length, except the two hard-surface ones, which
    // differ at their fourteenth letter.
    if s == HardSurfaceAxial {
      assert ToLower("HardSurfaceAxial")[13] != ToLower("HardSurfaceAngle")[13];
    }
  }

  /** `IsValidJSONObject`: a profile entry is for the operation `operationType`
    * when it exists, has both "Settings" and "Type", and its Type names the
    * operation ignoring case. */
  predicate IsValidJSONObject(entry: Option<Object>, operationType: string)
  {
    && entry.Some?
    && HasField(entry.value, "Settings")
    && HasField(entry.value, "Type")
    && EqualsIgnoreCase(GetStringField(entry.value, "Type"), operationType)
  }

  /** An entry is accepted exactly when it is present, carries Settings, and its
    * Type is a string spelling of the operation's name. */
  lemma IsValidJSONObjectAccepts(entry: Option<Object>, operationType: string)
    requires operationType != ""
    ensures IsValidJSONObject(entry, operationType) <==>
      && entry.Some?
      && "Settings" in entry.value
      && "Type" in entry.value && entry.value["Type"].JString?
      && EqualsIgnoreCase(entry.value["Type"].s, operationType)
  {
    if entry.Some? && "Type" in entry.value && !entry.value["Type"].JString? {
      assert GetStringField(entry.value, "Type") == "";
    }
  }

  // ---------------------------------------------------------------------
  // Checking a selection before an operation

  /** Whether an entry takes part in the uniqueness check: it has a static or
    * a skeletal mesh component. */
  predicate Keyed(c: MeshComponent) {
    c.staticMeshComponent.Some? || c.skeletalMeshComponent.Some?
  }

  /** The identity of the mesh asset an entry is checked under (null reads as
    * `None` and is a key like any other). */
  function AssetKey(c: MeshComponent): Option<nat> {
    var a := MeshAsset(c);
    if a.Some? then Some(a.value.id) else None
  }

  /** Two keyed entries of the selection share their mesh asset. */
  predicate HasDuplicateAsset(comps: seq<MeshComponent>) {
    exists i, j :: 0 <= i < j < |comps| && Keyed(comps[i]) && Keyed(comps[j]) && AssetKey(comps[i]) == AssetKey(comps[j])
  }

  /** Some entry's static mesh has a LOD group. */
  predicate HasStaticMeshWithLODGroup(comps: seq<MeshComponent>) {
    exists i :: 0 <= i < |comps| && StaticMeshWithLODGroup(comps[i])
  }

  predicate StaticMeshWithLODGroup(c: MeshComponent) {
    c.staticMeshComponent.Some? && c.staticMeshComponent.value.staticMesh.Some?
    && c.staticMeshComponent.value.staticMesh.value.hasLODGroup
  }

  /** The reasons an operation is refused. The last one is the user answering
    * "No" to the LOD group question, which shows no error text. */
  datatype OperationError =
    | EmptySelection
    | ResultUsageMustBeNewAsset
    | SameMeshes
    | MeshesWithLODGroup
    | LODGroupBakeDeclined

  predicate ChangesExistingMesh(usage: ResultUsage) {
    usage == AppendToLOD || usage == ReplaceLOD
  }

  /** Why an operation over `comps` is refused, checked in the source's order;
    * `None` when it may go ahead. `errorTextRequested` says whether the caller
    * asked for an error text (which also suppresses the question dialog) and
    * `dialogYes` is the answer the user would give to that dialog. */
  function OperationFailure(comps: seq<MeshComponent>, freezes: bool, usage: ResultUsage,
                            errorTextRequested: bool, dialogYes: bool): Option<OperationError>
  {
    if |comps| == 0 then Some(EmptySelection)
    else if freezes && |comps| > 1 && usage != NewAsset then Some(ResultUsageMustBeNewAsset)
    else if ChangesExistingMesh(usage) && HasDuplicateAsset(comps) then Some(SameMeshes)
    else if ChangesExistingMesh(usage) && HasStaticMeshWithLODGroup(comps) && errorTextRequested then Some(MeshesWithLODGroup)
    else if ChangesExistingMesh(usage) && HasStaticMeshWithLODGroup(comps) && !dialogYes then Some(LODGroupBakeDeclined)
    else None
  }

  /** The question dialog about LOD groups is shown: the checks before it
    * pass, a static mesh has a LOD group, and no error text was asked for. */
  predicate LODGroupDialogShown(comps: seq<MeshComponent>, freezes: bool, usage: ResultUsage, errorTextRequested: bool) {
    && |comps| > 0
    && !(freezes && |comps| > 1 && usage != NewAsset)
    && ChangesExistingMesh(usage) && !HasDuplicateAsset(comps)
    && HasStaticMeshWithLODGroup(comps)
    && !errorTextRequested
  }

  /** The package names the dialog lists as written: one line per entry of
    * the selection, read through its static mesh component, which is null
    * (`None` here) for a skeletal entry. */
  function LODGroupDialogLinesAsWritten(comps: seq<MeshComponent>): (r: seq<Option<string>>)
    requires AssetsPresent(comps)
    ensures |r| == |comps|
    ensures forall i :: 0 <= i < |comps| ==> (r[i].None? <==> comps[i].staticMeshComponent.None?)
  {
    seq(|comps|, i requires 0 <= i < |comps| && AssetPresent(comps[i]) =>
      if comps[i].staticMeshComponent.Some? then Some(comps[i].staticMeshComponent.value.staticMesh.value.packageName)
      else None)
  }

  /** A selection of a static mesh with a LOD group and a skeletal mesh,
    * appended to the LOD chain, shows the dialog, and listing it reads the
    * skeletal entry's null static mesh component. */
  lemma LODGroupDialogReadsNullComponent()
    ensures var staticMesh := Asset(1, "/Game/Rock", true);
      var skeletalMesh := Asset(2, "/Game/Hero", false);
      var comps := [
        MeshComponent(Some(StaticMeshComponent(10, Some(staticMesh))), None, None, true),
        MeshComponent(None, Some(SkeletalMeshComponent(11, Some(skeletalMesh))), None, true)];
      && AssetsPresent(comps)
      && LODGroupDialogShown(comps, false, AppendToLOD, false)
      && LODGroupDialogLinesAsWritten(comps)[1].None?
  {
    var staticMesh := Asset(1, "/Game/Rock", true);
    var skeletalMesh := Asset(2, "/Game/Hero", false);
    var comps := [
      MeshComponent(Some(StaticMeshComponent(10, Some(staticMesh))), None, None, true),
      MeshComponent(None, Some(SkeletalMeshComponent(11, Some(skeletalMesh))), None, true)];
    assert StaticMeshWithLODGroup(comps[0]);
    assert AssetKey(comps[0]) != AssetKey(comps[1]);
  }

  /** The package names the dialog should list: those of the static meshes
    * with a LOD group, in selection order, as the check collects them. */
  function LODGroupDialogLines(comps: seq<MeshComponent>): (r: seq<string>)
    requires AssetsPresent(comps)
    ensures |r| <= |comps|
    ensures |r| > 0 <==> HasStaticMeshWithLODGroup(comps)
    ensures forall k :: 0 <= k < |r| ==>
      exists i :: 0 <= i < |comps| && StaticMeshWithLODGroup(comps[i])
                  && comps[i].staticMeshComponent.value.staticMesh.value.packageName == r[k]
    decreases |comps|
  {
    if |comps| == 0 then []
    else
      var prefix := comps[..|comps| - 1];
      var c := comps[|comps| - 1];
      assert AssetsPresent(prefix) by {
        forall i | 0 <= i < |prefix| ensures AssetPresent(prefix[i]) {
          assert prefix[i] == comps[i];
        }
      }
      var prev := LODGroupDialogLines(prefix);
      assert HasStaticMeshWithLODGroup(comps) <==> HasStaticMeshWithLODGroup(prefix) || StaticMeshWithLODGroup(c) by {
        if HasStaticMeshWithLODGroup(prefix) {
          var i :| 0 <= i < |prefix| && StaticMeshWithLODGroup(prefix[i]);
          assert comps[i] == prefix[i];
        }
        if HasStaticMeshWithLODGroup(comps) && !StaticMeshWithLODGroup(c) {
          var i :| 0 <= i < |comps| && StaticMeshWithLODGroup(comps[i]);
          assert i < |prefix| && prefix[i] == comps[i];
        }
      }
      assert forall k :: 0 <= k < |prev| ==>
        exists i :: 0 <= i < |comps| && StaticMeshWithLODGroup(comps[i])
                    && comps[i].staticMeshComponent.value.staticMesh.value.packageName == prev[k] by {
        forall k | 0 <= k < |prev|
          ensures exists i :: 0 <= i < |comps| && StaticMeshWithLODGroup(comps[i])
                              && comps[i].staticMeshComponent.value.staticMesh.value.packageName == prev[k]
        {
          var i :| 0 <= i < |prefix| && StaticMeshWithLODGroup(prefix[i])
                   && prefix[i].staticMeshComponent.value.staticMesh.value.packageName == prev[k];
          assert comps[i] == prefix[i];
        }
      }
      if StaticMeshWithLODGroup(c) then prev + [c.staticMeshComponent.value.staticMesh.value.packageName]
      else prev
  }

  /** One step of the selection walk in `IsMeshOperationExecutable`: the
    * prefix grows by entry `i`, which adds its package to the dialog lines
    * when its static mesh has a LOD group, and adds a duplicate only when its
    * key was seen before. */
  lemma SelectionScanStep(comps: seq<MeshComponent>, i: nat)
    requires i < |comps| && AssetsPresent(comps)
    ensures AssetsPresent(comps[..i]) && AssetsPresent(comps[..i + 1])
    ensures LODGroupDialogLines(comps[..i + 1]) == LODGroupDialogLines(comps[..i])
      + (if StaticMeshWithLODGroup(comps[i]) then [comps[i].staticMeshComponent.value.staticMesh.value.packageName] else [])
    ensures HasDuplicateAsset(comps[..i + 1]) <==>
      (HasDuplicateAsset(comps[..i])
       || (Keyed(comps[i]) && exists j :: 0 <= j < i && Keyed(comps[j]) && AssetKey(comps[j]) == AssetKey(comps[i])))
  {
    var p := comps[..i + 1];
    assert p[..|p| - 1] == comps[..i] && p[|p| - 1] == comps[i];
    if HasDuplicateAsset(p) && !HasDuplicateAsset(comps[..i]) {
      var a, b :| 0 <= a < b < |p| && Keyed(p[a]) && Keyed(p[b]) && AssetKey(p[a]) == AssetKey(p[b]);
      assert b == i && p[a] == comps[a];
    }
    if Keyed(comps[i]) && exists j :: 0 <= j < i && Keyed(comps[j]) && AssetKey(comps[j]) == AssetKey(comps[i]) {
      var j :| 0 <= j < i && Keyed(comps[j]) && AssetKey(comps[j]) == AssetKey(comps[i]);
      assert p[j] == comps[j] && p[i] == comps[i];
    }
    if HasDuplicateAsset(comps[..i]) {
      var a, b :| 0 <= a < b < i && Keyed(comps[..i][a]) && Keyed(comps[..i][b]) && AssetKey(comps[..i][a]) == AssetKey(comps[..i][b]);
      assert p[a] == comps[..i][a] && p[b] == comps[..i][b];
    }
  }

  /** Every entry's static or skeletal component carries its mesh asset; this
    * is what the window's enabled-mesh filter guarantees. */
  predicate AssetsPresent(comps: seq<MeshComponent>) {
    forall i :: 0 <= i < |comps| ==> AssetPresent(comps[i])
  }

  predicate AssetPresent(c: MeshComponent) {
    && (c.staticMeshComponent.Some? ==> c.staticMeshComponent.value.staticMesh.Some?)
    && (c.skeletalMeshComponent.Some? ==> c.skeletalMeshComponent.value.skeletalMeshAsset.Some?)
  }

  // ---------------------------------------------------------------------
  // The default package name for new assets

  /** The package of the first entry with a static mesh component (or, failing
    * that, a skeletal one); empty when there is none. */
  function FirstPackageName(comps: seq<MeshComponent>): string
    requires AssetsPresent(comps)
  {
    if |comps| == 0 then ""
    else if comps[0].staticMeshComponent.Some? then comps[0].staticMeshComponent.value.staticMesh.value.packageName
    else if comps[0].skeletalMeshComponent.Some? then comps[0].skeletalMeshComponent.value.skeletalMeshAsset.value.packageName
    else FirstPackageName(comps[1..])
  }

  /** The common asset type prefixes dropped from a default package name. */
  const MeshTypePrefixes: seq<string> := ["SM_", "T_", "M_", "ML_", "SK_"]

  /** Drops every occurrence of each prefix in turn, in the order listed. */
  function StripAll(name: string, prefixes: seq<string>): string
    decreases |prefixes|
  {
    if |prefixes| == 0 then name else StripAll(Replace(name, prefixes[0]), prefixes[1..])
  }

  /** A name that contains none of the prefixes comes back unchanged. */
  lemma {:induction false} StripAllWithoutPrefixes(name: string, prefixes: seq<string>)
    requires forall i :: 0 <= i < |prefixes| ==> !Occurs(name, prefixes[i])
    ensures StripAll(name, prefixes) == name
  {
    if |prefixes| > 0 {
      ReplaceWithoutOccurrence(name, prefixes[0]);
      StripAllWithoutPrefixes(name, prefixes[1..]);
    }
  }

  /** A name that contains one of the prefixes gets strictly shorter. */
  lemma {:induction false} StripAllShortens(name: string, prefixes: seq<string>, k: nat)
    requires k < |prefixes| && |prefixes[k]| > 0 && Occurs(name, prefixes[k])
    requires forall i :: 0 <= i < k ==> !Occurs(name, prefixes[i])
    ensures |StripAll(name, prefixes)| < |name|
  {
    if k == 0 {
      ReplaceShortens(name, prefixes[0]);
      StripAllNoLonger(Replace(name, prefixes[0]), prefixes[1..]);
    } else {
      ReplaceWithoutOccurrence(name, prefixes[0]);
      StripAllShortens(name, prefixes[1..], k - 1);
    }
  }

  lemma {:induction false} StripAllNoLonger(name: string, prefixes: seq<string>)
    ensures |StripAll(name, prefixes)| <= |name|
    decreases |prefixes|
  {
    if |prefixes| > 0 {
      StripAllNoLonger(Replace(name, prefixes[0]), prefixes[1..]);
    }
  }

  /** Removing a string that occurs makes the result strictly shorter. */
  lemma {:induction false} ReplaceShortens(s: string, from: string)
    requires |from| > 0 && Occurs(s, from)
    ensures |Replace(s, from)| < |s|
    decreases |s|
  {
    var i: nat :| i <= |s| && OccursAt(s, from, i);
    if EqualsIgnoreCase(s[..|from|], from) {
    } else {
      assert i != 0;
      assert s[1..][i - 1..i - 1 + |from|] == s[i..i + |from|];
      assert OccursAt(s[1..], from, i - 1);
      ReplaceShortens(s[1..], from);
    }
  }

  /** The passes do not commute with the text they leave behind: removing
    * "SK_" from "SSK_K_" joins the rest into a new "SK_". */
  lemma StrippedNameMayStillHoldPrefix()
    ensures Replace("SSK_K_", "SK_") == "SK_"
  {
    assert "SSK_K_"[..3] == "SSK";
    assert ToLower("SSK")[2] == 'k' && ToLower("SK_")[2] == '_';
    assert "SSK_K_"[1..] == "SK_K_";
    assert "SK_K_"[..3] == "SK_";
    assert "SK_K_"[3..] == "K_";
  }

  /** The walk over the selection in `IsMeshOperationExecutable` when the
    * result changes existing meshes: it stops at the first entry whose mesh
    * asset was seen before, and otherwise collects the packages of the
    * static meshes with a LOD group. */
  method ScanSelection(comps: seq<MeshComponent>) returns (hasDuplicate: bool, withLODGroup: seq<string>)
    requires AssetsPresent(comps)
    ensures hasDuplicate <==> HasDuplicateAsset(comps)
    ensures !hasDuplicate ==> withLODGroup == LODGroupDialogLines(comps)
  {
    var unique: set<Option<nat>> := {};
    hasDuplicate := false;
    withLODGroup := [];
    var i := 0;
    while i < |comps|
      invariant 0 <= i <= |comps|
      invariant forall k :: k in unique <==> exists j :: 0 <= j < i && Keyed(comps[j]) && AssetKey(comps[j]) == k
      invariant !hasDuplicate ==> !HasDuplicateAsset(comps[..i])
      invariant hasDuplicate ==> HasDuplicateAsset(comps)
      invariant AssetsPresent(comps[..i]) && withLODGroup == LODGroupDialogLines(comps[..i])
      invariant !hasDuplicate || i < |comps|
    {
      var c := comps[i];
      SelectionScanStep(comps, i);
      if c.staticMeshComponent.Some? {
        var key := AssetKey(c);
        if key in unique {
          var j :| 0 <= j < i && Keyed(comps[j]) && AssetKey(comps[j]) == key;
          hasDuplicate := true;
          break;
        }
        unique := unique + {key};
        if c.staticMeshComponent.value.staticMesh.value.hasLODGroup {
          withLODGroup := withLODGroup + [c.staticMeshComponent.value.staticMesh.value.packageName];
        }
      } else if c.skeletalMeshComponent.Some? {
        var key := AssetKey(c);
        if key in unique {
          var j :| 0 <= j < i && Keyed(comps[j]) && AssetKey(comps[j]) == key;
          hasDuplicate := true;
          break;
        }
        unique := unique + {key};
      }
      i := i + 1;
    }
    if !hasDuplicate {
      assert comps[..i] == comps;
    }
  }

  // ---------------------------------------------------------------------
  // The tool state

  class BaseTool {
    var window: Window?
    var meshComponents: seq<MeshComponent>
    var resultUsage: ResultUsage
    var targetLODIndex: int
    var replaceSelectedMeshes: bool
    var pivotPosition: PivotPosition
    var skeletalMeshsSelected: bool
    var staticMeshsSelected: bool
    var singleSkeletalMeshSelected: bool
    /** The tool's `IsFreezingTransformsForMultiSelection`. */
    const freezesTransformsForMultiSelection: bool
    /** The tool's `GetOrderId`, its position in the window's toolbar. */
    const orderId: int

    /** The selection holds only entries whose meshes are present. */
    predicate Valid()
      reads this
    {
      AssetsPresent(meshComponents)
    }

    constructor(orderId: int, freezes: bool)
      ensures this.orderId == orderId && freezesTransformsForMultiSelection == freezes
      ensures window == null && meshComponents == []
      ensures resultUsage == AppendToLOD && targetLODIndex == 0 && !replaceSelectedMeshes
      ensures pivotPosition == Default
      ensures !skeletalMeshsSelected && !staticMeshsSelected && !singleSkeletalMeshSelected
      ensures Valid()
    {
      this.orderId := orderId;
      freezesTransformsForMultiSelection := freezes;
      window := null;
      meshComponents := [];
      resultUsage := AppendToLOD;
      targetLODIndex := 0;
      replaceSelectedMeshes := false;
      pivotPosition := Default;
      skeletalMeshsSelected := false;
      staticMeshsSelected := false;
      singleSkeletalMeshSelected := false;
    }

    /** `SkeletalMeshsSelected`: the window holds an included skeletal mesh. */
    method SkeletalMeshsSelected() returns (r: bool)
      ensures r <==> window != null && |Filter(window.selectedComponents, IncludedSkeletalMesh)| > 0
    {
      if window == null {
        return false;
      }
      var n := window.GetNumSkeletalMeshComponents();
      r := n > 0;
    }

    /** `StaticMeshsSelected`: the window holds an included static mesh. */
    method StaticMeshsSelected() returns (r: bool)
      ensures r <==> window != null && |Filter(window.selectedComponents, IncludedStaticMesh)| > 0
    {
      if window == null {
        return false;
      }
      var n := window.GetNumStaticMeshsComponents();
      r := n > 0;
    }

    /** `OnNewSelection`: takes the window's enabled meshes and refreshes the
      * three selection flags. */
    method OnNewSelection()
      modifies this
      ensures window == old(window)
      ensures window != null ==> meshComponents == Filter(window.selectedComponents, EnabledMesh)
      ensures window == null ==> meshComponents == old(meshComponents)
      ensures skeletalMeshsSelected <==> window != null && |Filter(window.selectedComponents, IncludedSkeletalMesh)| > 0
      ensures staticMeshsSelected <==> window != null && |Filter(window.selectedComponents, IncludedStaticMesh)| > 0
      ensures singleSkeletalMeshSelected <==> skeletalMeshsSelected && |meshComponents| == 1
      ensures resultUsage == old(resultUsage) && targetLODIndex == old(targetLODIndex)
      ensures replaceSelectedMeshes == old(replaceSelectedMeshes) && pivotPosition == old(pivotPosition)
      ensures old(Valid()) ==> Valid()
    {
      if window != null {
        meshComponents := window.GetEnabledSelectedMeshComponents();
        forall i | 0 <= i < |meshComponents| ensures AssetPresent(meshComponents[i]) {
          assert meshComponents[i] in meshComponents;
        }
      }
      skeletalMeshsSelected := SkeletalMeshsSelected();
      staticMeshsSelected := StaticMeshsSelected();
      singleSkeletalMeshSelected := skeletalMeshsSelected && |meshComponents| == 1;
    }

    /** `SetInstaLODWindow`: a null window is ignored; otherwise the window is
      * kept and the selection flags are recomputed for the current entries. */
    method SetInstaLODWindow(newWindow: Window?)
      modifies this
      ensures newWindow == null ==> (
        && window == old(window)
        && skeletalMeshsSelected == old(skeletalMeshsSelected)
        && staticMeshsSelected == old(staticMeshsSelected)
        && singleSkeletalMeshSelected == old(singleSkeletalMeshSelected))
      ensures newWindow != null ==> (
        && window == newWindow
        && (skeletalMeshsSelected <==> |Filter(newWindow.selectedComponents, IncludedSkeletalMesh)| > 0)
        && (staticMeshsSelected <==> |Filter(newWindow.selectedComponents, IncludedStaticMesh)| > 0)
        && (singleSkeletalMeshSelected <==> skeletalMeshsSelected && |meshComponents| == 1))
      ensures meshComponents == old(meshComponents) && resultUsage == old(resultUsage)
      ensures targetLODIndex == old(targetLODIndex) && replaceSelectedMeshes == old(replaceSelectedMeshes)
      ensures pivotPosition == old(pivotPosition)
    {
      if newWindow != null {
        window := newWindow;
        skeletalMeshsSelected := SkeletalMeshsSelected();
        staticMeshsSelected := StaticMeshsSelected();
        singleSkeletalMeshSelected := skeletalMeshsSelected && |meshComponents| == 1;
      }
    }

    /** `IsMeshOperationExecutable` of the base tool: walks the selection once,
      * collecting the mesh assets seen so far, and refuses the operation for
      * the first reason `OperationFailure` gives. The error text is produced
      * only when the caller asks for it. When the LOD group question is
      * asked, `dialogLines` are the packages it lists: those of the static
      * meshes with a LOD group (see `LODGroupDialogLinesAsWritten`). */
    method IsMeshOperationExecutable(errorTextRequested: bool, dialogYes: bool)
      returns (ok: bool, errorText: Option<OperationError>, dialogLines: seq<string>)
      requires Valid()
      ensures dialogLines == if LODGroupDialogShown(meshComponents, freezesTransformsForMultiSelection, resultUsage, errorTextRequested)
                             then LODGroupDialogLines(meshComponents) else []
      ensures ok <==> OperationFailure(meshComponents, freezesTransformsForMultiSelection, resultUsage, errorTextRequested, dialogYes).None?
      ensures errorText == (if errorTextRequested
        then OperationFailure(meshComponents, freezesTransformsForMultiSelection, resultUsage, errorTextRequested, dialogYes)
        else None)
    {
      var comps := meshComponents;
      dialogLines := [];
      if |comps| == 0 {
        return false, if errorTextRequested then Some(EmptySelection) else None, [];
      }
      if freezesTransformsForMultiSelection && |comps| > 1 && resultUsage != NewAsset {
        return false, if errorTextRequested then Some(ResultUsageMustBeNewAsset) else None, [];
      }
      if resultUsage == AppendToLOD || resultUsage == ReplaceLOD {
        var hasDuplicate, withLODGroup := ScanSelection(comps);
        if hasDuplicate {
          return false, if errorTextRequested then Some(SameMeshes) else None, [];
        }
        if |withLODGroup| > 0 {
          if !errorTextRequested {
            dialogLines := withLODGroup;
            if !dialogYes {
              return false, None, dialogLines;
            }
          } else {
            return false, Some(MeshesWithLODGroup), [];
          }
        }
      }
      return true, None, dialogLines;
    }

    /** `GetDefaultPackageName`: the package of the first selected mesh, or
      * `uniqueName` (a fresh name the engine makes up) when there is none,
      * with the asset type prefixes dropped. */
    method GetDefaultPackageName(uniqueName: string) returns (name: string)
      requires Valid()
      ensures name == StripAll(if FirstPackageName(meshComponents) == "" then uniqueName
                               else FirstPackageName(meshComponents), MeshTypePrefixes)
    {
      name := "";
      var i := 0;
      while i < |meshComponents|
        invariant 0 <= i <= |meshComponents|
        invariant AssetsPresent(meshComponents[i..])
        invariant FirstPackageName(meshComponents) == FirstPackageName(meshComponents[i..])
      {
        var c := meshComponents[i];
        if c.staticMeshComponent.Some? {
          name := c.staticMeshComponent.value.staticMesh.value.packageName;
          break;
        } else if c.skeletalMeshComponent.Some? {
          name := c.skeletalMeshComponent.value.skeletalMeshAsset.value.packageName;
          break;
        }
        assert meshComponents[i..][1..] == meshComponents[i + 1..];
        i := i + 1;
      }
      assert i == |meshComponents| ==> meshComponents[i..] == [];
      if name == "" {
        name := uniqueName;
      }
      ghost var original := name;
      assert MeshTypePrefixes[1..] == ["T_", "M_", "ML_", "SK_"];
      assert ["T_", "M_", "ML_", "SK_"][1..] == ["M_", "ML_", "SK_"];
      assert ["M_", "ML_", "SK_"][1..] == ["ML_", "SK_"];
      assert ["ML_", "SK_"][1..] == ["SK_"];
      assert ["SK_"][1..] == [];
      name := Replace(name, "SM_");
      name := Replace(name, "T_");
      name := Replace(name, "M_");
      name := Replace(name, "ML_");
      name := Replace(name, "SK_");
      assert name == StripAll(original, MeshTypePrefixes);
    }

    /** `ResetSettings` of the base tool. */
    method ResetSettings()
      modifies this
      ensures targetLODIndex == 0 && !replaceSelectedMeshes && pivotPosition == Default
      ensures window == old(window) && meshComponents == old(meshComponents)
      ensures resultUsage == old(resultUsage)
      ensures skeletalMeshsSelected == old(skeletalMeshsSelected)
      ensures staticMeshsSelected == old(staticMeshsSelected)
      ensures singleSkeletalMeshSelected == old(singleSkeletalMeshSelected)
    {
      targetLODIndex := 0;
      replaceSelectedMeshes := false;
      pivotPosition := Default;
    }
  }
}
