/** `UInstaLODBakeBaseTool`: the base of the tools that bake texture pages
  * (remesh and imposterize). It adds the bake output options to the base
  * tool, converts them into the SDK's bake output settings and reads them
  * from a settings profile.
  *
  * The bake options are one record, `BakeOptions`, held in the tool's
  * `options` field; the material settings are a second field.
  */
module InstaLODBakeBaseTool {
  import opened Wrappers
  import opened UEString
  import opened Json
  import API = InstaLODAPI
  import opened InstaLODBaseTool
  import opened InstaLODMaterial

  /** The super sampling a profile string selects: "x2" gives 2x, "x4" and
    * "x8" give 4x (the plugin has no 8x), anything else none. */
  function SuperSamplingForString(value: string): (r: SuperSampling)
    ensures r == X2 <==> EqualsIgnoreCase(value, "x2")
    ensures r == X4 <==> !EqualsIgnoreCase(value, "x2") && (EqualsIgnoreCase(value, "x4") || EqualsIgnoreCase(value, "x8"))
  {
    if EqualsIgnoreCase(value, "x2") then X2
    else if EqualsIgnoreCase(value, "x2") || EqualsIgnoreCase(value, "x4") || EqualsIgnoreCase(value, "x8") then X4
    else SuperSamplingNone
  }

  /** The SDK's larger level "x16" is not understood and reads as none, and
    * the plugin's own names read back as themselves. */
  lemma SuperSamplingNames()
    ensures SuperSamplingForString("x16") == SuperSamplingNone
    ensures SuperSamplingForString("x8") == X4
    ensures SuperSamplingForString(SuperSamplingName(SuperSamplingNone)) == SuperSamplingNone
    ensures SuperSamplingForString(SuperSamplingName(X2)) == X2
    ensures SuperSamplingForString(SuperSamplingName(X4)) == X4
  {
    assert |ToLower("x16")| == 3;
    assert ToLower("x8")[1] == '8';
    assert ToLower("none")[1] == 'o';
    assert ToLower("x4")[1] == '4';
  }

  /** The name a profile uses for a super sampling level. */
  function SuperSamplingName(s: SuperSampling): string {
    match s
    case SuperSamplingNone => "none"
    case X2 => "x2"
    case X4 => "x4"
  }

  /** The tool's bake options: super sampling, solidification, the alpha mask
    * threshold and one check box per optional texture page. */
  datatype BakeOptions = BakeOptions(
    superSampling: SuperSampling,
    solidifyTexturePages: bool,
    alphaMaskThreshold: real,
    positionNormalizeAABB: bool,
    normalObjectSpace: bool,
    meshID: bool,
    vertexColor: bool,
    ambientOcclusion: bool,
    bentNormals: bool,
    thickness: bool,
    displacement: bool,
    position: bool,
    curvature: bool,
    opacity: bool,
    reflectance: bool)

  /** The property initialisers of the tool. */
  const DefaultBakeOptions := BakeOptions(
    X2, true, 0.5, true, false, false, false, false, false, false, false, false, false, false, false)

  /** The keys of the "BakeOutputSettings" profile object the tool reads. */
  const BakeOptionKeys: seq<string> := [
    "TexturePageAmbientOcclusion", "TexturePageBentNormals", "TexturePageCurvature",
    "TexturePageDisplacement", "TexturePageMeshID", "TexturePageNormalObjectSpace",
    "TexturePageOpacity", "TexturePagePosition", "TexturePageReflectance",
    "TexturePageThickness", "TexturePageVertexColor", "SolidifyTexturePages",
    "NormalizePositionByAABB", "SuperSampling", "AlphaMaskThreshold"]

  /** The options after reading the "BakeOutputSettings" object `b` over `o`:
    * every key present replaces its option, every absent key keeps it. */
  function ReadBakeOptions(b: Object, o: BakeOptions): BakeOptions
  {
    BakeOptions(
      superSampling := if HasField(b, "SuperSampling") then SuperSamplingForString(GetStringField(b, "SuperSampling")) else o.superSampling,
      solidifyTexturePages := BoolOr(b, "SolidifyTexturePages", o.solidifyTexturePages),
      alphaMaskThreshold := NumberOr(b, "AlphaMaskThreshold", o.alphaMaskThreshold),
      positionNormalizeAABB := BoolOr(b, "NormalizePositionByAABB", o.positionNormalizeAABB),
      normalObjectSpace := BoolOr(b, "TexturePageNormalObjectSpace", o.normalObjectSpace),
      meshID := BoolOr(b, "TexturePageMeshID", o.meshID),
      vertexColor := BoolOr(b, "TexturePageVertexColor", o.vertexColor),
      ambientOcclusion := BoolOr(b, "TexturePageAmbientOcclusion", o.ambientOcclusion),
      bentNormals := BoolOr(b, "TexturePageBentNormals", o.bentNormals),
      thickness := BoolOr(b, "TexturePageThickness", o.thickness),
      displacement := BoolOr(b, "TexturePageDisplacement", o.displacement),
      position := BoolOr(b, "TexturePagePosition", o.position),
      curvature := BoolOr(b, "TexturePageCurvature", o.curvature),
      opacity := BoolOr(b, "TexturePageOpacity", o.opacity),
      reflectance := BoolOr(b, "TexturePageReflectance", o.reflectance))
  }

  /** An object with none of the bake keys changes nothing; a present key
    * sets its option (super sampling through its names, a page through a
    * boolean). */
  lemma ReadBakeOptionsKeys(b: Object, o: BakeOptions)
    ensures (forall k :: k in BakeOptionKeys ==> k !in b) ==> ReadBakeOptions(b, o) == o
    ensures "SuperSampling" in b ==>
      ReadBakeOptions(b, o).superSampling == SuperSamplingForString(GetStringField(b, "SuperSampling"))
    ensures "TexturePageReflectance" in b ==>
      (ReadBakeOptions(b, o).reflectance <==> b["TexturePageReflectance"] == JBool(true))
  {
    if forall k :: k in BakeOptionKeys ==> k !in b {
      var keys := BakeOptionKeys;
      assert keys[0] !in b && keys[1] !in b && keys[2] !in b && keys[3] !in b && keys[4] !in b;
      assert keys[5] !in b && keys[6] !in b && keys[7] !in b && keys[8] !in b && keys[9] !in b;
      assert keys[10] !in b && keys[11] !in b && keys[12] !in b && keys[13] !in b && keys[14] !in b;
    }
  }

  /** A "BakeOutputSettings" object that states every option of `o`. */
  function BakeOptionsProfile(o: BakeOptions): Object {
    map[
      "TexturePageAmbientOcclusion" := JBool(o.ambientOcclusion),
      "TexturePageBentNormals" := JBool(o.bentNormals),
      "TexturePageCurvature" := JBool(o.curvature),
      "TexturePageDisplacement" := JBool(o.displacement),
      "TexturePageMeshID" := JBool(o.meshID),
      "TexturePageNormalObjectSpace" := JBool(o.normalObjectSpace),
      "TexturePageOpacity" := JBool(o.opacity),
      "TexturePagePosition" := JBool(o.position),
      "TexturePageReflectance" := JBool(o.reflectance),
      "TexturePageThickness" := JBool(o.thickness),
      "TexturePageVertexColor" := JBool(o.vertexColor),
      "SolidifyTexturePages" := JBool(o.solidifyTexturePages),
      "NormalizePositionByAABB" := JBool(o.positionNormalizeAABB),
      "SuperSampling" := JString(SuperSamplingName(o.superSampling)),
      "AlphaMaskThreshold" := JNumber(o.alphaMaskThreshold)]
  }

  /** Reading a profile that states every option gives exactly those options,
    * whatever the tool held before. */
  lemma ReadBakeOptionsProfile(o: BakeOptions, current: BakeOptions)
    ensures ReadBakeOptions(BakeOptionsProfile(o), current) == o
  {
    ProfileGivesSuperSampling(o, current);
    ProfileGivesGeneralOptions(o, current);
    ProfileGivesPages(o, current);
    ProfileGivesMorePages(o, current);
    ProfileGivesLastPages(o, current);
    ProfileGivesFinalPages(o, current);
  }

  // The round trip, a few keys at a time: each lookup in the profile costs
  // the solver a comparison with every key before it.

  lemma ProfileGivesSuperSampling(o: BakeOptions, current: BakeOptions)
    ensures var p := BakeOptionsProfile(o);
      (if HasField(p, "SuperSampling") then SuperSamplingForString(GetStringField(p, "SuperSampling"))
       else current.superSampling) == o.superSampling
  {
    SuperSamplingNames();
  }

  lemma ProfileGivesGeneralOptions(o: BakeOptions, current: BakeOptions)
    ensures var p := BakeOptionsProfile(o);
      && BoolOr(p, "SolidifyTexturePages", current.solidifyTexturePages) == o.solidifyTexturePages
      && NumberOr(p, "AlphaMaskThreshold", current.alphaMaskThreshold) == o.alphaMaskThreshold
      && BoolOr(p, "NormalizePositionByAABB", current.positionNormalizeAABB) == o.positionNormalizeAABB
      && BoolOr(p, "TexturePageNormalObjectSpace", current.normalObjectSpace) == o.normalObjectSpace
  {
  }

  lemma ProfileGivesPages(o: BakeOptions, current: BakeOptions)
    ensures var p := BakeOptionsProfile(o);
      && BoolOr(p, "TexturePageMeshID", current.meshID) == o.meshID
      && BoolOr(p, "TexturePageVertexColor", current.vertexColor) == o.vertexColor
  {
  }

  lemma ProfileGivesMorePages(o: BakeOptions, current: BakeOptions)
    ensures var p := BakeOptionsProfile(o);
      && BoolOr(p, "TexturePageAmbientOcclusion", current.ambientOcclusion) == o.ambientOcclusion
      && BoolOr(p, "TexturePageBentNormals", current.bentNormals) == o.bentNormals
      && BoolOr(p, "TexturePageThickness", current.thickness) == o.thickness
  {
  }

  lemma ProfileGivesLastPages(o: BakeOptions, current: BakeOptions)
    ensures var p := BakeOptionsProfile(o);
      && BoolOr(p, "TexturePageDisplacement", current.displacement) == o.displacement
      && BoolOr(p, "TexturePagePosition", current.position) == o.position
  {
  }

  lemma ProfileGivesFinalPages(o: BakeOptions, current: BakeOptions)
    ensures var p := BakeOptionsProfile(o);
      && BoolOr(p, "TexturePageCurvature", current.curvature) == o.curvature
      && BoolOr(p, "TexturePageOpacity", current.opacity) == o.opacity
      && BoolOr(p, "TexturePageReflectance", current.reflectance) == o.reflectance
  {
  }

  /** Reading the same object twice is reading it once. */
  lemma ReadBakeOptionsIdempotent(b: Object, o: BakeOptions)
    ensures ReadBakeOptions(b, ReadBakeOptions(b, o)) == ReadBakeOptions(b, o)
  {
  }

  /** The "Settings" object's "BakeOutputSettings" object, when `json` has both. */
  function BakeOutputObject(json: Option<Object>): (r: Option<Object>)
    ensures r.Some? <==> json.Some? && TryGetObjectField(json.value, "Settings").Some?
                         && TryGetObjectField(TryGetObjectField(json.value, "Settings").value, "BakeOutputSettings").Some?
    ensures r.Some? ==> "Settings" in json.value && "BakeOutputSettings" in json.value["Settings"].fields
    ensures r.Some? ==> r.value == json.value["Settings"].fields["BakeOutputSettings"].fields
  {
    if json.None? then None
    else
      var settings := TryGetObjectField(json.value, "Settings");
      if settings.None? then None
      else TryGetObjectField(settings.value, "BakeOutputSettings")
  }

  /** The SDK bake output the options ask for: the options over the SDK
    * defaults, with the engine's tangent space conventions fixed (OpenGL,
    * per-fragment binormals), the tangent space normal page always on and
    * the transfer page always off. */
  function BakeOutputSettingsFor(o: BakeOptions, m: MaterialSettings): (b: API.BakeOutputSettings)
    ensures BakeOutputCommon(b)
    ensures b.superSampling == ToSDKSuperSampling(o.superSampling)
    ensures b.solidifyTexturePages == o.solidifyTexturePages
    ensures b.textureFilter == m.textureFilter
    ensures b.normalizePositionByAABB == o.positionNormalizeAABB
    ensures b.texturePageNormalObjectSpace == o.normalObjectSpace
    ensures b.texturePageMeshID == o.meshID
    ensures b.texturePageVertexColor == o.vertexColor
    ensures b.texturePageAmbientOcclusion == o.ambientOcclusion
    ensures b.texturePageBentNormals == o.bentNormals
    ensures b.texturePageThickness == o.thickness
    ensures b.texturePageDisplacement == o.displacement
    ensures b.texturePagePosition == o.position
    ensures b.texturePageCurvature == o.curvature
    ensures b.texturePageOpacity == o.opacity
    ensures b.texturePageReflectance == o.reflectance
    ensures b.ambientOcclusionSampleCount == API.DefaultBakeOutputSettings.ambientOcclusionSampleCount
    ensures b.thicknessSampleCount == API.DefaultBakeOutputSettings.thicknessSampleCount
    ensures b.autoDelightColorOutput == API.DefaultBakeOutputSettings.autoDelightColorOutput
  {
    API.DefaultBakeOutputSettings.(
      tangentSpaceFormat := API.OpenGL,
      computeBinormalPerFragment := true,
      normalizeTangentSpacePerFragment := false,
      superSampling := ToSDKSuperSampling(o.superSampling),
      solidifyTexturePages := o.solidifyTexturePages,
      sourceMeshUVChannelIndex := 0,
      textureFilter := m.textureFilter,
      normalizePositionByAABB := o.positionNormalizeAABB,
      texturePageNormalTangentSpace := true,
      texturePageNormalObjectSpace := o.normalObjectSpace,
      texturePageMeshID := o.meshID,
      texturePageVertexColor := o.vertexColor,
      texturePageAmbientOcclusion := o.ambientOcclusion,
      texturePageBentNormals := o.bentNormals,
      texturePageThickness := o.thickness,
      texturePageDisplacement := o.displacement,
      texturePagePosition := o.position,
      texturePageCurvature := o.curvature,
      texturePageTransfer := false,
      texturePageOpacity := o.opacity,
      texturePageReflectance := o.reflectance)
  }

  // ---------------------------------------------------------------------
  // Reading the bake options from a sub-object

  /** The bake options as the remesh and imposterize readers leave them:
    * they hand the bake reader the entry's "Settings" object, and the bake
    * reader looks for a "Settings" object in what it is given, so the bake
    * options are found only under "Settings" / "Settings" /
    * "BakeOutputSettings". */
  function BakeOptionsFromSettingsAsWritten(s: Object, o: BakeOptions): (r: BakeOptions)
    ensures BakeOutputObject(Some(s)).None? ==> r == o
  {
    var b := BakeOutputObject(Some(s));
    if b.Some? then ReadBakeOptions(b.value, o) else o
  }

  /** A profile entry whose "Settings" holds its "BakeOutputSettings" (the
    * layout the bake reader expects of an entry) turning the opacity page
    * on. */
  function OpacityPageEntrySettings(): Object {
    map["BakeOutputSettings" := JObject(map["TexturePageOpacity" := JBool(true)])]
  }

  /** Handed the "Settings" object, the bake reader does not apply such an
    * entry's bake options: the opacity page stays off. Handed the entry, it
    * does. */
  lemma SettingsObjectBakeOptionsLost()
    ensures BakeOptionsFromSettingsAsWritten(OpacityPageEntrySettings(), DefaultBakeOptions).opacity == false
    ensures BakeOptionsFromEntry(Some(map["Settings" := JObject(OpacityPageEntrySettings())]), DefaultBakeOptions).opacity == true
  {
    assert "Settings" !in OpacityPageEntrySettings();
  }

  /** The bake options read from the entry itself, as the bake reader expects
    * of a profile entry: its "Settings" object's "BakeOutputSettings". */
  function BakeOptionsFromEntry(entry: Option<Object>, o: BakeOptions): (r: BakeOptions)
    ensures BakeOutputObject(entry).None? ==> r == o
    ensures BakeOutputObject(entry).Some? ==> r == ReadBakeOptions(BakeOutputObject(entry).value, o)
  {
    var b := BakeOutputObject(entry);
    if b.Some? then ReadBakeOptions(b.value, o) else o
  }

  /** Read from the entry, a profile that states every bake option sets them
    * all, whatever the tool held before. */
  lemma BakeOptionsFromEntryProfile(settings: Object, o: BakeOptions, current: BakeOptions)
    requires "BakeOutputSettings" in settings && settings["BakeOutputSettings"] == JObject(BakeOptionsProfile(o))
    ensures BakeOptionsFromEntry(Some(map["Settings" := JObject(settings)]), current) == o
  {
    var entry := Some(map["Settings" := JObject(settings)]);
    assert BakeOutputObject(entry) == Some(BakeOptionsProfile(o));
    ReadBakeOptionsProfile(o, current);
  }

  class BakeBaseTool {
    const base: BaseTool
    var options: BakeOptions
    var materialSettings: MaterialSettings

    /** The property initialisers of the header. */
    constructor(orderId: int, freezes: bool)
      ensures fresh(base) && base.orderId == orderId && base.freezesTransformsForMultiSelection == freezes
      ensures base.window == null && base.meshComponents == [] && base.Valid()
      ensures options == DefaultBakeOptions
      ensures materialSettings == DefaultMaterialSettings
    {
      base := new BaseTool(orderId, freezes);
      options := DefaultBakeOptions;
      materialSettings := DefaultMaterialSettings;
    }

    /** `ResetSettings`: the bake defaults, then the base tool's reset. The
      * reflectance page is not part of the reset and keeps its value. */
    method ResetSettings()
      modifies this, base
      ensures options == DefaultBakeOptions.(reflectance := old(options.reflectance))
      ensures materialSettings == DefaultMaterialSettings
      ensures base.targetLODIndex == 0 && !base.replaceSelectedMeshes && base.pivotPosition == Default
      ensures base.window == old(base.window) && base.meshComponents == old(base.meshComponents)
      ensures base.resultUsage == old(base.resultUsage)
    {
      options := DefaultBakeOptions.(reflectance := options.reflectance);
      materialSettings := DefaultMaterialSettings;
      base.ResetSettings();
    }

    /** `GetBakeOutputSettings`: the SDK bake output for the tool's options. */
    function GetBakeOutputSettings(): (b: API.BakeOutputSettings)
      reads this
      ensures b == BakeOutputSettingsFor(options, materialSettings)
    {
      BakeOutputSettingsFor(options, materialSettings)
    }

    /** `GetMaterialProxySettings` of the bake tools. */
    function GetToolMaterialProxySettings(engineDefaults: MaterialProxySettings): (p: MaterialProxySettings)
      reads this
      ensures CopiedInto(materialSettings, p)
      ensures p.specularTextureSize == engineDefaults.specularTextureSize
    {
      GetMaterialProxySettings(materialSettings, engineDefaults)
    }

    /** `ReadSettingsFromJSONObject` of the bake tools: `json` must hold a
      * "Settings" object, which must hold a "BakeOutputSettings" object;
      * otherwise nothing changes and the answer is false. Each option present
      * there is read; the others keep their values. */
    method ReadSettingsFromJSONObject(json: Option<Object>) returns (ok: bool)
      modifies this
      ensures ok <==> BakeOutputObject(json).Some?
      ensures ok ==> options == ReadBakeOptions(BakeOutputObject(json).value, old(options))
      ensures !ok ==> options == old(options)
      ensures materialSettings == old(materialSettings)
    {
      if json.None? {
        return false;
      }
      if !HasField(json.value, "Settings") {
        return false;
      }
      var settings := TryGetObjectField(json.value, "Settings");
      if settings.None? {
        return false;
      }
      var bakeOutput := TryGetObjectField(settings.value, "BakeOutputSettings");
      if bakeOutput.None? {
        return false;
      }
      var b := bakeOutput.value;
      var superSampling := options.superSampling;
      if HasField(b, "SuperSampling") {
        var sampling := GetStringField(b, "SuperSampling");
        superSampling := SuperSamplingNone;
        if EqualsIgnoreCase(sampling, "x2") {
          superSampling := X2;
        } else if EqualsIgnoreCase(sampling, "x2") || EqualsIgnoreCase(sampling, "x4") || EqualsIgnoreCase(sampling, "x8") {
          superSampling := X4;
        }
      }
      // The remaining options are each read when present (BoolOr, NumberOr).
      options := ReadBakeOptions(b, options).(superSampling := superSampling);
      return true;
    }
  }
}
