/** `UInstaLODMaterialMergeTool`: combines the material textures of the
  * selected meshes into one texture page and lays out new UVs for them.
  *
  * The tool's options are one record, `MergeOptions`, held in the tool's
  * `options` field; the material settings are a second field.
  */
module InstaLODMaterialMergeTool {
  import opened Wrappers
  import opened UEString
  import opened Json
  import API = InstaLODAPI
  import opened InstaLODBaseTool
  import opened InstaLODMaterial

  datatype MergeOptions = MergeOptions(
    stackDuplicateShells: bool,
    insertNormalSplits: bool,
    worldspaceNormalizeShells: bool,
    gutterSizeInPixels: int,
    superSampling: SuperSampling,
    shellRotation: API.UVPackShellRotation,
    texCoordIndexInput: int,
    uvImportance: Importance,
    geometricImportance: Importance,
    textureImportance: Importance,
    visualImportance: Importance,
    deterministic: bool,
    generateZeroAreaUV: bool,
    zeroAreaUVThreshold: real)

  /** The property initialisers of the header, which `ResetSettings` also
    * restores. */
  const DefaultMergeOptions := MergeOptions(
    stackDuplicateShells := true, insertNormalSplits := true,
    worldspaceNormalizeShells := true, gutterSizeInPixels := 5,
    superSampling := X2, shellRotation := API.Arbitrary, texCoordIndexInput := 0,
    uvImportance := Normal, geometricImportance := Normal,
    textureImportance := Normal, visualImportance := Normal,
    deterministic := false, generateZeroAreaUV := false, zeroAreaUVThreshold := 0.0)

  function ShellRotationName(r: API.UVPackShellRotation): string {
    match r
    case RotationNone => "None"
    case Allow90 => "Allow90"
    case Arbitrary => "Arbitrary"
  }

  /** The shell rotation a profile string names, ignoring case; an unknown
    * name keeps `current`. */
  function ShellRotationForString(value: string, current: API.UVPackShellRotation): (r: API.UVPackShellRotation)
    ensures r == API.Allow90 <==> EqualsIgnoreCase(value, "Allow90") || (current == API.Allow90 && !EqualsIgnoreCase(value, "Arbitrary") && !EqualsIgnoreCase(value, "None"))
    ensures !EqualsIgnoreCase(value, "Allow90") && !EqualsIgnoreCase(value, "Arbitrary") && !EqualsIgnoreCase(value, "None") ==> r == current
  {
    if EqualsIgnoreCase(value, "Allow90") then API.Allow90
    else if EqualsIgnoreCase(value, "Arbitrary") then API.Arbitrary
    else if EqualsIgnoreCase(value, "None") then API.RotationNone
    else current
  }

  /** Every rotation's own name, in any letter case, reads back as that
    * rotation, whatever the current one is. */
  lemma ShellRotationNameRoundTrip(r: API.UVPackShellRotation, spelled: string, current: API.UVPackShellRotation)
    requires EqualsIgnoreCase(spelled, ShellRotationName(r))
    ensures ShellRotationForString(spelled, current) == r
  {
    assert ToLower(spelled) == ToLower(ShellRotationName(r));
    assert ToLower("Allow90")[0] == 'a' && ToLower("Allow90")[1] == 'l';
    assert ToLower("Arbitrary")[0] == 'a' && ToLower("Arbitrary")[1] == 'r';
    assert ToLower("None")[0] == 'n';
  }

  function TextureFilterName(f: API.TextureFilter): string {
    match f
    case Nearest => "Nearest"
    case Bilinear => "Bilinear"
    case Bicubic => "Bicubic"
  }

  /** The texture filter a profile string names, ignoring case; an unknown
    * name keeps `current`. */
  function TextureFilterForString(value: string, current: API.TextureFilter): (r: API.TextureFilter)
    ensures !EqualsIgnoreCase(value, "Bilinear") && !EqualsIgnoreCase(value, "Bicubic") && !EqualsIgnoreCase(value, "Nearest") ==> r == current
  {
    if EqualsIgnoreCase(value, "Bilinear") then API.Bilinear
    else if EqualsIgnoreCase(value, "Bicubic") then API.Bicubic
    else if EqualsIgnoreCase(value, "Nearest") then API.Nearest
    else current
  }

  /** Every filter's own name, in any letter case, reads back as that filter. */
  lemma TextureFilterNameRoundTrip(f: API.TextureFilter, spelled: string, current: API.TextureFilter)
    requires EqualsIgnoreCase(spelled, TextureFilterName(f))
    ensures TextureFilterForString(spelled, current) == f
  {
    assert ToLower(spelled) == ToLower(TextureFilterName(f));
    assert ToLower("Bilinear")[2] == 'l';
    assert ToLower("Bicubic")[2] == 'c';
    assert ToLower("Nearest")[0] == 'n' && ToLower("Bilinear")[0] == 'b' && ToLower("Bicubic")[0] == 'b';
  }

  /** A "Settings" object whose "Mode" is "Transfer" (any letter case): the
    * engine's transfer mode, which the tool does not support. */
  predicate IsTransferMode(s: Object) {
    HasField(s, "Mode") && EqualsIgnoreCase(GetStringField(s, "Mode"), "Transfer")
  }

  /** The options after reading the "Settings" object `s` over `o`; a
    * transfer-mode object reads nothing. The super sampling and the
    * deterministic flag are not read. */
  function ReadMergeOptions(s: Object, o: MergeOptions): (r: MergeOptions)
    ensures IsTransferMode(s) ==> r == o
    ensures r.superSampling == o.superSampling && r.deterministic == o.deterministic
    ensures !IsTransferMode(s) && "ShellRotation" in s ==> r.shellRotation == ShellRotationForString(GetStringField(s, "ShellRotation"), o.shellRotation)
    ensures "ShellRotation" !in s ==> r.shellRotation == o.shellRotation
  {
    if IsTransferMode(s) then o
    else
      MergeOptions(
        stackDuplicateShells := o.stackDuplicateShells,
        insertNormalSplits := o.insertNormalSplits,
        worldspaceNormalizeShells := o.worldspaceNormalizeShells,
        gutterSizeInPixels := IntegerOr(s, "GutterSizeInPixels", o.gutterSizeInPixels),
        superSampling := o.superSampling,
        shellRotation :=
          if HasField(s, "ShellRotation") then ShellRotationForString(GetStringField(s, "ShellRotation"), o.shellRotation)
          else o.shellRotation,
        texCoordIndexInput := IntegerOr(s, "TexCoordIndexInput", o.texCoordIndexInput),
        uvImportance := ImportanceOr(s, "UVImportance", o.uvImportance),
        geometricImportance := ImportanceOr(s, "GeometricImportance", o.geometricImportance),
        textureImportance := ImportanceOr(s, "TextureImportance", o.textureImportance),
        visualImportance := ImportanceOr(s, "VisualImportance", o.visualImportance),
        deterministic := o.deterministic,
        generateZeroAreaUV := BoolOr(s, "GenerateZeroAreaUV", o.generateZeroAreaUV),
        zeroAreaUVThreshold := NumberOr(s, "ZeroAreaUVThreshold", o.zeroAreaUVThreshold))
  }

  /** The texture filter after reading `s`: only outside transfer mode and
    * only when the key is present. */
  function ReadTextureFilter(s: Object, current: API.TextureFilter): (r: API.TextureFilter)
    ensures IsTransferMode(s) || "TextureFilter" !in s ==> r == current
  {
    if !IsTransferMode(s) && HasField(s, "TextureFilter") then TextureFilterForString(GetStringField(s, "TextureFilter"), current)
    else current
  }

  /** Reading is idempotent, and an object without keys changes nothing. */
  lemma ReadMergeOptionsLaws(s: Object, o: MergeOptions, f: API.TextureFilter)
    ensures ReadMergeOptions(map[], o) == o && ReadTextureFilter(map[], f) == f
    ensures ReadMergeOptions(s, ReadMergeOptions(s, o)) == ReadMergeOptions(s, o)
    ensures ReadTextureFilter(s, ReadTextureFilter(s, f)) == ReadTextureFilter(s, f)
  {
  }

  /** `GetMaterialMergeSettings`, as written: the mode is always auto-repack,
    * texture pages are always solidified and binormals computed per
    * fragment; the tool's super sampling is not passed on, so the SDK's
    * default applies whatever the tool holds. */
  function MeshMergeSettingsAsWritten(o: MergeOptions, filter: API.TextureFilter): (r: API.MeshMergeSettings)
    ensures r.mode == API.AutoRepack && r.solidifyTexturePages
    ensures r.computeBinormalPerFragment && !r.normalizeTangentSpacePerFragment
    ensures r.superSampling == API.DefaultMeshMergeSettings.superSampling
    ensures r.textureFilter == filter && r.shellRotation == o.shellRotation
    ensures FromSDKImportance(r.uvImportance) == o.uvImportance
    ensures FromSDKImportance(r.geometricImportance) == o.geometricImportance
    ensures FromSDKImportance(r.textureImportance) == o.textureImportance
    ensures FromSDKImportance(r.visualImportance) == o.visualImportance
    ensures r.texCoordIndexOutput == API.DefaultMeshMergeSettings.texCoordIndexOutput
  {
    ImportanceCastIsBijection(o.uvImportance, Normal);
    ImportanceCastIsBijection(o.geometricImportance, Normal);
    ImportanceCastIsBijection(o.textureImportance, Normal);
    ImportanceCastIsBijection(o.visualImportance, Normal);
    API.DefaultMeshMergeSettings.(
      mode := API.AutoRepack,
      textureFilter := filter,
      solidifyTexturePages := true,
      computeBinormalPerFragment := true,
      normalizeTangentSpacePerFragment := false,
      gutterSizeInPixels := API.UInt32(o.gutterSizeInPixels),
      shellRotation := o.shellRotation,
      texCoordIndexInput := API.UInt32(o.texCoordIndexInput),
      stackDuplicateShells := o.stackDuplicateShells,
      insertNormalSplits := o.insertNormalSplits,
      worldspaceNormalizeShells := o.worldspaceNormalizeShells,
      uvImportance := ToSDKImportance(o.uvImportance),
      geometricImportance := ToSDKImportance(o.geometricImportance),
      textureImportance := ToSDKImportance(o.textureImportance),
      visualImportance := ToSDKImportance(o.visualImportance),
      generateZeroAreaUV := o.generateZeroAreaUV,
      zeroAreaUVThreshold := o.zeroAreaUVThreshold,
      deterministic := o.deterministic)
  }

  /** The super sampling the tool offers is lost: a tool set to no super
    * sampling still asks the SDK for 2x. */
  lemma MergeSuperSamplingIgnored(filter: API.TextureFilter)
    ensures MeshMergeSettingsAsWritten(DefaultMergeOptions.(superSampling := SuperSamplingNone), filter).superSampling == API.X2
    ensures MeshMergeSettingsAsWritten(DefaultMergeOptions.(superSampling := X4), filter)
         == MeshMergeSettingsAsWritten(DefaultMergeOptions.(superSampling := SuperSamplingNone), filter)
  {
  }

  /** `GetMaterialMergeSettings` with the tool's super sampling passed on,
    * as for the bake tools. */
  function MeshMergeSettingsFor(o: MergeOptions, filter: API.TextureFilter): (r: API.MeshMergeSettings)
    ensures r == MeshMergeSettingsAsWritten(o, filter).(superSampling := r.superSampling)
    ensures r.superSampling == ToSDKSuperSampling(o.superSampling)
  {
    MeshMergeSettingsAsWritten(o, filter).(superSampling := ToSDKSuperSampling(o.superSampling))
  }

  /** With the super sampling passed on, the tool's three levels reach the
    * SDK as three different levels. */
  lemma MergeSuperSamplingKept(o: MergeOptions, p: MergeOptions, filter: API.TextureFilter)
    requires MeshMergeSettingsFor(o, filter) == MeshMergeSettingsFor(p, filter)
    ensures o.superSampling == p.superSampling
  {
    assert ToSDKSuperSampling(o.superSampling) == ToSDKSuperSampling(p.superSampling);
  }

  class MaterialMergeTool {
    const base: BaseTool
    var options: MergeOptions
    var materialSettings: MaterialSettings

    constructor(config: MergeOptions)
      ensures fresh(base) && base.orderId == 4 && !base.freezesTransformsForMultiSelection
      ensures options == config && materialSettings == DefaultMaterialSettings
    {
      base := new BaseTool(4, false);
      options := config;
      materialSettings := DefaultMaterialSettings;
    }

    /** `ResetSettings`: every option and the material settings back to
      * their defaults, then the base tool's reset. */
    method ResetSettings()
      modifies this, base
      ensures options == DefaultMergeOptions && materialSettings == DefaultMaterialSettings
      ensures base.targetLODIndex == 0 && !base.replaceSelectedMeshes && base.pivotPosition == Default
      ensures base.window == old(base.window) && base.meshComponents == old(base.meshComponents)
    {
      options := DefaultMergeOptions;
      materialSettings := DefaultMaterialSettings;
      base.ResetSettings();
    }

    function GetMaterialMergeSettings(): (r: API.MeshMergeSettings)
      reads this
      ensures r == MeshMergeSettingsFor(options, materialSettings.textureFilter)
    {
      MeshMergeSettingsFor(options, materialSettings.textureFilter)
    }

    /** `GetMaterialProxySettings` of the merge tool, the same copy as the
      * bake tools'. */
    function GetToolMaterialProxySettings(engineDefaults: MaterialProxySettings): (p: MaterialProxySettings)
      reads this
      ensures CopiedInto(materialSettings, p)
      ensures p.specularTextureSize == engineDefaults.specularTextureSize
    {
      GetMaterialProxySettings(materialSettings, engineDefaults)
    }

    /** `ReadSettingsFromJSONObject`: an entry for "MeshMerge" with a
      * "Settings" object is accepted and read over the options and the
      * material settings' texture filter (a transfer-mode entry is accepted
      * and reads nothing); anything else is refused and changes nothing. */
    method ReadSettingsFromJSONObject(json: Option<Object>) returns (ok: bool)
      modifies this
      ensures ok <==> IsValidJSONObject(json, "MeshMerge") && TryGetObjectField(json.value, "Settings").Some?
      ensures ok ==> var s := TryGetObjectField(json.value, "Settings").value;
        && options == ReadMergeOptions(s, old(options))
        && materialSettings == old(materialSettings).(textureFilter := ReadTextureFilter(s, old(materialSettings.textureFilter)))
      ensures !ok ==> options == old(options) && materialSettings == old(materialSettings)
    {
      if !IsValidJSONObject(json, "MeshMerge") {
        return false;
      }
      var settings := TryGetObjectField(json.value, "Settings");
      if settings.None? {
        return false;
      }
      var s := settings.value;
      if IsTransferMode(s) {
        return true;
      }
      options := ReadMergeOptions(s, options);
      materialSettings := materialSettings.(textureFilter := ReadTextureFilter(s, materialSettings.textureFilter));
      return true;
    }
  }
}
