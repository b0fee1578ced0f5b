/** Material settings shared by the baking tools and by the scripting API:
  * the plugin's material settings record (`FInstaLODMaterialSettings`, and
  * `UFlattenMaterialSettings`, which has the same properties and defaults),
  * their conversion to the engine's `FMaterialProxySettings`, and the
  * scripting API's bake output settings object.
  */
module InstaLODMaterial {
  import API = InstaLODAPI
  import opened InstaLODBaseTool

  datatype IntPoint = IntPoint(x: int, y: int)

  /** The engine's material blend modes. */
  datatype BlendMode = Opaque | Masked | Translucent | Additive | Modulate | AlphaComposite | AlphaHoldout

  /** The plugin's texture sizing choice. The engine's own enumeration starts
    * with the same three values in the same order, so the cast keeps them. */
  datatype TextureSizingType = UseSingleTextureSize | UseAutomaticBiasedSizes | UseManualOverrideTextureSize

  datatype MaterialSettings = MaterialSettings(
    textureSize: IntPoint,
    textureSizingType: TextureSizingType,
    blendMode: BlendMode,
    textureFilter: API.TextureFilter,
    normalMap: bool,
    metallicMap: bool,
    metallicConstant: real,
    roughnessMap: bool,
    roughnessConstant: real,
    specularMap: bool,
    specularConstant: real,
    emissiveMap: bool,
    opacityMap: bool,
    opacityConstant: real,
    opacityMaskMap: bool,
    opacityMaskConstant: real,
    ambientOcclusionMap: bool,
    ambientOcclusionConstant: real,
    diffuseTextureSize: IntPoint,
    normalTextureSize: IntPoint,
    metallicTextureSize: IntPoint,
    roughnessTextureSize: IntPoint,
    specularTextureSize: IntPoint,
    emissiveTextureSize: IntPoint,
    opacityTextureSize: IntPoint,
    opacityMaskTextureSize: IntPoint,
    ambientOcclusionTextureSize: IntPoint)

  /** The defaults of both material settings types: 2048 pixels for the page,
    * the diffuse and the normal map, 1024 for every other map. */
  const DefaultMaterialSettings := MaterialSettings(
    textureSize := IntPoint(2048, 2048), textureSizingType := UseSingleTextureSize,
    blendMode := Opaque, textureFilter := API.Bilinear, normalMap := true,
    metallicMap := false, metallicConstant := 0.0, roughnessMap := false,
    roughnessConstant := 0.5, specularMap := false, specularConstant := 0.5,
    emissiveMap := false, opacityMap := false, opacityConstant := 1.0,
    opacityMaskMap := false, opacityMaskConstant := 1.0,
    ambientOcclusionMap := false, ambientOcclusionConstant := 1.0,
    diffuseTextureSize := IntPoint(2048, 2048), normalTextureSize := IntPoint(2048, 2048),
    metallicTextureSize := IntPoint(1024, 1024), roughnessTextureSize := IntPoint(1024, 1024),
    specularTextureSize := IntPoint(1024, 1024), emissiveTextureSize := IntPoint(1024, 1024),
    opacityTextureSize := IntPoint(1024, 1024), opacityMaskTextureSize := IntPoint(1024, 1024),
    ambientOcclusionTextureSize := IntPoint(1024, 1024))

  /** The engine's `FMaterialProxySettings`, restricted to the properties the
    * plugin's settings also have. */
  datatype MaterialProxySettings = MaterialProxySettings(
    textureSize: IntPoint,
    textureSizingType: TextureSizingType,
    blendMode: BlendMode,
    normalMap: bool,
    metallicMap: bool,
    metallicConstant: real,
    roughnessMap: bool,
    roughnessConstant: real,
    specularMap: bool,
    specularConstant: real,
    emissiveMap: bool,
    opacityMap: bool,
    opacityConstant: real,
    opacityMaskMap: bool,
    opacityMaskConstant: real,
    ambientOcclusionMap: bool,
    ambientOcclusionConstant: real,
    diffuseTextureSize: IntPoint,
    normalTextureSize: IntPoint,
    metallicTextureSize: IntPoint,
    roughnessTextureSize: IntPoint,
    specularTextureSize: IntPoint,
    emissiveTextureSize: IntPoint,
    opacityTextureSize: IntPoint,
    opacityMaskTextureSize: IntPoint,
    ambientOcclusionTextureSize: IntPoint)

  /** The engine proxy settings that `m` carries over, field for field. */
  predicate CopiedInto(m: MaterialSettings, p: MaterialProxySettings) {
    && p.textureSize == m.textureSize && p.textureSizingType == m.textureSizingType
    && p.blendMode == m.blendMode && p.normalMap == m.normalMap
    && p.metallicMap == m.metallicMap && p.metallicConstant == m.metallicConstant
    && p.roughnessMap == m.roughnessMap && p.roughnessConstant == m.roughnessConstant
    && p.specularMap == m.specularMap && p.specularConstant == m.specularConstant
    && p.emissiveMap == m.emissiveMap && p.opacityMap == m.opacityMap
    && p.opacityMaskMap == m.opacityMaskMap && p.ambientOcclusionMap == m.ambientOcclusionMap
    && p.ambientOcclusionConstant == m.ambientOcclusionConstant
    && p.diffuseTextureSize == m.diffuseTextureSize && p.normalTextureSize == m.normalTextureSize
    && p.metallicTextureSize == m.metallicTextureSize && p.roughnessTextureSize == m.roughnessTextureSize
    && p.emissiveTextureSize == m.emissiveTextureSize && p.opacityTextureSize == m.opacityTextureSize
    && p.opacityMaskTextureSize == m.opacityMaskTextureSize
    && p.ambientOcclusionTextureSize == m.ambientOcclusionTextureSize
  }

  /** `GetMaterialProxySettings` (of the bake tools and of the scripting
    * API's flatten settings): starting from the engine's defaults
    * `engineDefaults`, every property is copied except the specular texture
    * size and the opacity and opacity mask constants, which keep the
    * engine's values. */
  function GetMaterialProxySettings(m: MaterialSettings, engineDefaults: MaterialProxySettings): (p: MaterialProxySettings)
    ensures CopiedInto(m, p)
    ensures p.specularTextureSize == engineDefaults.specularTextureSize
    ensures p.opacityConstant == engineDefaults.opacityConstant
    ensures p.opacityMaskConstant == engineDefaults.opacityMaskConstant
  {
    engineDefaults.(
      textureSize := m.textureSize, textureSizingType := m.textureSizingType,
      blendMode := m.blendMode, normalMap := m.normalMap,
      metallicConstant := m.metallicConstant, metallicMap := m.metallicMap,
      roughnessConstant := m.roughnessConstant, roughnessMap := m.roughnessMap,
      specularConstant := m.specularConstant, specularMap := m.specularMap,
      emissiveMap := m.emissiveMap, opacityMap := m.opacityMap,
      opacityMaskMap := m.opacityMaskMap, ambientOcclusionMap := m.ambientOcclusionMap,
      ambientOcclusionConstant := m.ambientOcclusionConstant,
      diffuseTextureSize := m.diffuseTextureSize, normalTextureSize := m.normalTextureSize,
      metallicTextureSize := m.metallicTextureSize, roughnessTextureSize := m.roughnessTextureSize,
      emissiveTextureSize := m.emissiveTextureSize, opacityTextureSize := m.opacityTextureSize,
      opacityMaskTextureSize := m.opacityMaskTextureSize,
      ambientOcclusionTextureSize := m.ambientOcclusionTextureSize)
  }

  /** The proxy settings depend on the material settings only through the
    * copied properties: two settings that differ in the texture filter, the
    * specular texture size or the opacity constants give the same proxy. */
  lemma ProxyIgnoresUncopiedProperties(m: MaterialSettings, n: MaterialSettings, d: MaterialProxySettings)
    requires n == m.(textureFilter := n.textureFilter, specularTextureSize := n.specularTextureSize,
                     opacityConstant := n.opacityConstant, opacityMaskConstant := n.opacityMaskConstant)
    ensures GetMaterialProxySettings(m, d) == GetMaterialProxySettings(n, d)
  {
  }

  /** Conversely, equal proxies come from settings that agree on every copied
    * property, so no copied property is lost. */
  lemma ProxyKeepsCopiedProperties(m: MaterialSettings, n: MaterialSettings, d: MaterialProxySettings)
    requires GetMaterialProxySettings(m, d) == GetMaterialProxySettings(n, d)
    ensures n == m.(textureFilter := n.textureFilter, specularTextureSize := n.specularTextureSize,
                    opacityConstant := n.opacityConstant, opacityMaskConstant := n.opacityMaskConstant)
  {
    var p := GetMaterialProxySettings(m, d);
    assert CopiedInto(m, p) && CopiedInto(n, p);
  }

  // ---------------------------------------------------------------------
  // The scripting API's bake output settings object

  /** `UInstaLODBakeOutputSettings`. */
  datatype ScriptBakeOutputSettings = ScriptBakeOutputSettings(
    superSampling: SuperSampling,
    solidifyTexturePages: bool,
    alphaMaskThreshold: real,
    flattenMaterialSettings: MaterialSettings,
    bakeTexturePageNormalObjectSpace: bool,
    bakeTexturePageMeshID: bool,
    bakeTexturePageVertexColor: bool,
    bakeTexturePageAmbientOcclusion: bool,
    bakeTexturePageBentNormals: bool,
    bakeTexturePageThickness: bool,
    bakeTexturePageDisplacement: bool,
    bakeTexturePagePosition: bool,
    bakeTexturePagePositionNormalizeAABB: bool,
    bakeTexturePageCurvature: bool,
    bakeTexturePageOpacity: bool,
    bakeTexturePageReflectance: bool,
    savePath: string,
    ambientOcclusionSampleCount: int,
    thicknessSampleCount: int,
    enableAutoDelight: bool)

  /** What the constructor and the property initialisers give. */
  const DefaultScriptBakeOutputSettings := ScriptBakeOutputSettings(
    superSampling := X2, solidifyTexturePages := true, alphaMaskThreshold := 0.5,
    flattenMaterialSettings := DefaultMaterialSettings,
    bakeTexturePageNormalObjectSpace := false, bakeTexturePageMeshID := false,
    bakeTexturePageVertexColor := false, bakeTexturePageAmbientOcclusion := false,
    bakeTexturePageBentNormals := false, bakeTexturePageThickness := false,
    bakeTexturePageDisplacement := false, bakeTexturePagePosition := false,
    bakeTexturePagePositionNormalizeAABB := true, bakeTexturePageCurvature := false,
    bakeTexturePageOpacity := false, bakeTexturePageReflectance := false,
    savePath := "InstaLOD_Script_Output", ambientOcclusionSampleCount := 32,
    thicknessSampleCount := 32, enableAutoDelight := false)

  /** The part of the conversion the tool and the scripting API share: the
    * fixed tangent space conventions and the page flags. */
  predicate BakeOutputCommon(b: API.BakeOutputSettings) {
    && b.tangentSpaceFormat == API.OpenGL
    && b.computeBinormalPerFragment
    && !b.normalizeTangentSpacePerFragment
    && b.sourceMeshUVChannelIndex == 0
    && b.texturePageNormalTangentSpace
    && !b.texturePageTransfer
  }

  /** `UInstaLODBakeOutputSettings::GetBakeOutputSettings` as written: the
    * ambient occlusion sample count is taken from the thickness count. */
  function ScriptGetBakeOutputSettingsAsWritten(s: ScriptBakeOutputSettings): (b: API.BakeOutputSettings)
    ensures BakeOutputCommon(b)
    ensures b.ambientOcclusionSampleCount == API.UInt32(s.thicknessSampleCount)
    ensures b.thicknessSampleCount == API.UInt32(s.thicknessSampleCount)
  {
    ScriptGetBakeOutputSettings(s).(ambientOcclusionSampleCount := API.UInt32(s.thicknessSampleCount))
  }

  /** With the defaults raised to 64 ambient occlusion rays, the as-written
    * conversion still asks for 32. */
  lemma AmbientOcclusionSampleCountIgnored()
    ensures var s := DefaultScriptBakeOutputSettings.(ambientOcclusionSampleCount := 64);
      ScriptGetBakeOutputSettingsAsWritten(s).ambientOcclusionSampleCount == 32
  {
  }

  /** `UInstaLODBakeOutputSettings::GetBakeOutputSettings` with each sample
    * count taken from its own property. Every page flag and option is carried
    * over; the remaining SDK fields keep the SDK defaults. */
  function ScriptGetBakeOutputSettings(s: ScriptBakeOutputSettings): (b: API.BakeOutputSettings)
    ensures BakeOutputCommon(b)
    ensures b.ambientOcclusionSampleCount == API.UInt32(s.ambientOcclusionSampleCount)
    ensures b.thicknessSampleCount == API.UInt32(s.thicknessSampleCount)
    ensures b.superSampling == ToSDKSuperSampling(s.superSampling)
    ensures b.textureFilter == s.flattenMaterialSettings.textureFilter
    ensures b.autoDelightColorOutput == s.enableAutoDelight
    ensures b.solidifyTexturePages == s.solidifyTexturePages
    ensures b.normalizePositionByAABB == s.bakeTexturePagePositionNormalizeAABB
    ensures b.texturePageNormalObjectSpace == s.bakeTexturePageNormalObjectSpace
    ensures b.texturePageMeshID == s.bakeTexturePageMeshID
    ensures b.texturePageVertexColor == s.bakeTexturePageVertexColor
    ensures b.texturePageAmbientOcclusion == s.bakeTexturePageAmbientOcclusion
    ensures b.texturePageBentNormals == s.bakeTexturePageBentNormals
    ensures b.texturePageThickness == s.bakeTexturePageThickness
    ensures b.texturePageDisplacement == s.bakeTexturePageDisplacement
    ensures b.texturePagePosition == s.bakeTexturePagePosition
    ensures b.texturePageCurvature == s.bakeTexturePageCurvature
    ensures b.texturePageOpacity == s.bakeTexturePageOpacity
    ensures b.texturePageReflectance == s.bakeTexturePageReflectance
  {
    API.DefaultBakeOutputSettings.(
      tangentSpaceFormat := API.OpenGL,
      computeBinormalPerFragment := true,
      normalizeTangentSpacePerFragment := false,
      superSampling := ToSDKSuperSampling(s.superSampling),
      solidifyTexturePages := s.solidifyTexturePages,
      sourceMeshUVChannelIndex := 0,
      textureFilter := s.flattenMaterialSettings.textureFilter,
      normalizePositionByAABB := s.bakeTexturePagePositionNormalizeAABB,
      texturePageNormalTangentSpace := true,
      texturePageNormalObjectSpace := s.bakeTexturePageNormalObjectSpace,
      texturePageMeshID := s.bakeTexturePageMeshID,
      texturePageVertexColor := s.bakeTexturePageVertexColor,
      texturePageAmbientOcclusion := s.bakeTexturePageAmbientOcclusion,
      texturePageBentNormals := s.bakeTexturePageBentNormals,
      texturePageThickness := s.bakeTexturePageThickness,
      texturePageDisplacement := s.bakeTexturePageDisplacement,
      texturePagePosition := s.bakeTexturePagePosition,
      texturePageCurvature := s.bakeTexturePageCurvature,
      texturePageTransfer := false,
      texturePageOpacity := s.bakeTexturePageOpacity,
      texturePageReflectance := s.bakeTexturePageReflectance,
      autoDelightColorOutput := s.enableAutoDelight,
      ambientOcclusionSampleCount := API.UInt32(s.ambientOcclusionSampleCount),
      thicknessSampleCount := API.UInt32(s.thicknessSampleCount))
  }

  /** The two conversions agree exactly when both sample counts are equal
    * modulo 2^32. */
  lemma AsWrittenAgreesOnlyOnEqualCounts(s: ScriptBakeOutputSettings)
    ensures ScriptGetBakeOutputSettingsAsWritten(s) == ScriptGetBakeOutputSettings(s) <==>
      API.UInt32(s.ambientOcclusionSampleCount) == API.UInt32(s.thicknessSampleCount)
  {
    if ScriptGetBakeOutputSettingsAsWritten(s) == ScriptGetBakeOutputSettings(s) {
      assert ScriptGetBakeOutputSettingsAsWritten(s).ambientOcclusionSampleCount ==
        ScriptGetBakeOutputSettings(s).ambientOcclusionSampleCount;
    }
  }
}
