/** The settings objects of the scripting interface
  * (`UInstaLODRemeshSettings`, `UInstaLODIsotropicRemeshSettings`,
  * `UInstaLODOcclusionCullSettings`, `UInstaLODImposterizeSettings`) and
  * their conversions into the SDK's settings structures.
  *
  * Unlike the tools, these objects have no profile reader and no radio
  * choice: every property reaches the SDK through a plain field copy or a
  * C-style enum cast.
  */
module InstaLODScriptSettings {
  import API = InstaLODAPI
  import opened InstaLODBaseTool
  import Remesh = InstaLODRemeshTool
  import Isotropic = InstaLODIsotropicRemeshTool
  import Cull = InstaLODOcclusionCullTool
  import Imposterize = InstaLODImposterizeTool

  // ---------------------------------------------------------------------
  // UInstaLODRemeshSettings

  datatype ScriptRemeshSettings = ScriptRemeshSettings(
    remeshMode: Remesh.RemeshMode,
    fuzzyFaceCountTarget: Remesh.RemeshFaceCount,
    maximumTriangles: int,
    screenSizeInPixels: int,
    pixelMergeDistance: int,
    automaticTextureSize: bool,
    remeshResolution: Remesh.RemeshResolution,
    ignoreBackfaces: bool,
    lockBoundaries: bool,
    distinctConstruction: bool,
    hardAngleThreshold: real,
    weldingDistance: real,
    gutterSizeInPixels: int,
    unwrapStrategy: UnwrapStrategy,
    unwrapStretchImportance: Importance)

  /** The property initialisers of the header. */
  const DefaultScriptRemeshSettings := ScriptRemeshSettings(
    remeshMode := Remesh.ModeReconstruct, fuzzyFaceCountTarget := Remesh.FaceCountNormal,
    maximumTriangles := 4, screenSizeInPixels := 300, pixelMergeDistance := 2,
    automaticTextureSize := false, remeshResolution := Remesh.ResolutionNormal,
    ignoreBackfaces := false, lockBoundaries := false, distinctConstruction := false,
    hardAngleThreshold := 70.0, weldingDistance := 0.0, gutterSizeInPixels := 2,
    unwrapStrategy := Auto, unwrapStretchImportance := Normal)

  /** `GetRemeshingSettings`: all three targets are copied whatever the
    * chosen one, the resolution level becomes pixels as in the tool, the
    * distinct construction flag is passed on and the bake engine is the CPU;
    * the bake output and everything else keep the SDK defaults. */
  function ScriptGetRemeshingSettings(s: ScriptRemeshSettings): (r: API.RemeshingSettings)
    ensures r.faceCountTarget == Remesh.ToSDKFaceCount(s.fuzzyFaceCountTarget)
    ensures r.maximumTriangles == API.UInt32(s.maximumTriangles)
    ensures r.screenSizeInPixels == API.UInt32(s.screenSizeInPixels)
    ensures r.resolution == Remesh.ResolutionPixels(s.remeshResolution)
    ensures r.bakeEngine == API.CPU && r.distinctSurfaceConstructionPerMesh == s.distinctConstruction
    ensures r.bakeOutput == API.DefaultBakeOutputSettings
  {
    API.DefaultRemeshingSettings.(
      surfaceMode := Remesh.ToSDKSurfaceMode(s.remeshMode),
      faceCountTarget := Remesh.ToSDKFaceCount(s.fuzzyFaceCountTarget),
      maximumTriangles := API.UInt32(s.maximumTriangles),
      screenSizeInPixels := API.UInt32(s.screenSizeInPixels),
      screenSizePixelMergeDistance := API.UInt32(s.pixelMergeDistance),
      screenSizeInPixelsAutomaticTextureSize := s.automaticTextureSize,
      resolution := Remesh.ResolutionPixels(s.remeshResolution),
      distinctSurfaceConstructionPerMesh := s.distinctConstruction,
      surfaceConstructionIgnoreBackface := s.ignoreBackfaces,
      surfaceModeOptimizeLockBoundaries := s.lockBoundaries,
      hardAngleThreshold := s.hardAngleThreshold,
      weldDistance := s.weldingDistance,
      gutterSizeInPixels := API.UInt32(s.gutterSizeInPixels),
      unwrapStrategy := ToSDKUnwrapStrategy(s.unwrapStrategy),
      stretchImportance := ToSDKImportance(s.unwrapStretchImportance),
      bakeEngine := API.CPU)
  }

  function FromSDKSurfaceMode(m: API.RemeshSurfaceMode): Remesh.RemeshMode {
    match m
    case Reconstruct => Remesh.ModeReconstruct
    case SurfaceOptimize => Remesh.ModeOptimize
    case ConvexHull => Remesh.ModeConvexHull
    case SurfaceUV => Remesh.ModeUV
  }

  function FromSDKFaceCount(f: API.RemeshFaceCountTarget): Remesh.RemeshFaceCount {
    match f
    case FaceLowest => Remesh.FaceCountLowest
    case FaceLow => Remesh.FaceCountLow
    case FaceNormal => Remesh.FaceCountNormal
    case FaceHigh => Remesh.FaceCountHigh
    case FaceHighest => Remesh.FaceCountHighest
  }

  /** The level whose resolution is `pixels`; other values read as Normal. */
  function ResolutionForPixels(pixels: nat): Remesh.RemeshResolution {
    if pixels == 100 then Remesh.ResolutionLowest
    else if pixels == 150 then Remesh.ResolutionLow
    else if pixels == 512 then Remesh.ResolutionHigh
    else if pixels == 1024 then Remesh.ResolutionVeryHigh
    else if pixels == 2048 then Remesh.ResolutionExtreme
    else Remesh.ResolutionNormal
  }

  function FromSDKUnwrapStrategy(u: API.UnwrapStrategy): UnwrapStrategy {
    match u
    case Organic => Organic
    case HardSurfaceAngle => HardSurfaceAngle
    case HardSurfaceAxial => HardSurfaceAxial
    case Auto => Auto
  }

  /** The script settings an SDK structure was made from. */
  function ScriptRemeshSettingsOf(r: API.RemeshingSettings): ScriptRemeshSettings {
    ScriptRemeshSettings(
      remeshMode := FromSDKSurfaceMode(r.surfaceMode),
      fuzzyFaceCountTarget := FromSDKFaceCount(r.faceCountTarget),
      maximumTriangles := r.maximumTriangles,
      screenSizeInPixels := r.screenSizeInPixels,
      pixelMergeDistance := r.screenSizePixelMergeDistance,
      automaticTextureSize := r.screenSizeInPixelsAutomaticTextureSize,
      remeshResolution := ResolutionForPixels(r.resolution),
      ignoreBackfaces := r.surfaceConstructionIgnoreBackface,
      lockBoundaries := r.surfaceModeOptimizeLockBoundaries,
      distinctConstruction := r.distinctSurfaceConstructionPerMesh,
      hardAngleThreshold := r.hardAngleThreshold,
      weldingDistance := r.weldDistance,
      gutterSizeInPixels := r.gutterSizeInPixels,
      unwrapStrategy := FromSDKUnwrapStrategy(r.unwrapStrategy),
      unwrapStretchImportance := FromSDKImportance(r.stretchImportance))
  }

  /** The conversion loses no property: every counter that fits in 32 bits
    * comes back from the SDK structure as it went in. */
  lemma ScriptRemeshingRoundTrip(s: ScriptRemeshSettings)
    requires 0 <= s.maximumTriangles < 0x1_0000_0000 && 0 <= s.screenSizeInPixels < 0x1_0000_0000
    requires 0 <= s.pixelMergeDistance < 0x1_0000_0000 && 0 <= s.gutterSizeInPixels < 0x1_0000_0000
    ensures ScriptRemeshSettingsOf(ScriptGetRemeshingSettings(s)) == s
  {
    ImportanceCastIsBijection(s.unwrapStretchImportance, Normal);
  }

  /** The script sends every target, while the tool sends the selected one
    * only: with the face count chosen in the tool, its maximum triangle count
    * keeps the SDK default, but the script's arrives. */
  lemma ScriptSendsEveryTarget(s: ScriptRemeshSettings)
    requires 0 < s.maximumTriangles < 0x1_0000_0000
    ensures ScriptGetRemeshingSettings(s).maximumTriangles == s.maximumTriangles
    ensures ScriptGetRemeshingSettings(s).maximumTriangles != API.DefaultRemeshingSettings.maximumTriangles
  {
  }

  // ---------------------------------------------------------------------
  // UInstaLODIsotropicRemeshSettings: the same properties, with the same
  // initialisers, as the tool's options.

  /** `GetIsotropicRemeshingSettings` as written: the collapse threshold, a
    * percentage of the target edge size, is copied without the division by
    * 100 the tool applies, and texture coordinate splits are always
    * preserved. */
  function ScriptGetIsotropicRemeshingSettingsAsWritten(o: Isotropic.IsotropicOptions): (r: API.IsotropicRemeshingSettings)
    ensures r.collapseThreshold == o.collapseThreshold
    ensures r.preserveTexCoordSplits
  {
    API.IsotropicRemeshingSettings(
      edgeMode := o.edgeMode,
      targetEdgeSize := o.targetEdgeSize,
      precision := ToSDKImportance(o.precision),
      weldingThreshold := o.weldingThreshold,
      geometricFeatureAngleInDegrees := o.geometricFeatureAngleInDegrees,
      collapseThreshold := o.collapseThreshold,
      preserveColorSplits := o.preserveColorSplits,
      preserveTexCoordSplits := true,
      preserveNormalSplits := o.preserveNormalSplits,
      preserveVolume := o.preserveVolume,
      recalculateNormals := o.recalculateNormals,
      hardAngleThreshold := o.hardAngleThreshold,
      weightedNormals := o.weightedNormals,
      deterministic := API.DefaultIsotropicRemeshingSettings.deterministic)
  }

  /** The default 75 percent reaches the SDK as 75 target edge sizes, a
    * hundred times the SDK's own default of 0.75, and differs from what the
    * tool sends for the same options. */
  lemma ScriptCollapseThresholdNotScaled()
    ensures ScriptGetIsotropicRemeshingSettingsAsWritten(Isotropic.DefaultIsotropicOptions).collapseThreshold == 75.0
    ensures API.DefaultIsotropicRemeshingSettings.collapseThreshold == 0.75
    ensures ScriptGetIsotropicRemeshingSettingsAsWritten(Isotropic.DefaultIsotropicOptions)
      != Isotropic.IsotropicRemeshingSettingsFor(Isotropic.DefaultIsotropicOptions)
  {
  }

  /** `GetIsotropicRemeshingSettings` with the percentage turned into the
    * fraction the SDK expects. */
  function ScriptGetIsotropicRemeshingSettings(o: Isotropic.IsotropicOptions): (r: API.IsotropicRemeshingSettings)
    ensures r.collapseThreshold * 100.0 == o.collapseThreshold
    ensures r.preserveTexCoordSplits
  {
    ScriptGetIsotropicRemeshingSettingsAsWritten(o).(collapseThreshold := o.collapseThreshold / 100.0)
  }

  /** With the division, the script sends what the tool sends for the same
    * options, except that texture coordinate splits are always preserved;
    * the script's defaults reach the SDK as the SDK's own defaults. */
  lemma ScriptIsotropicAgreesWithTool(o: Isotropic.IsotropicOptions)
    ensures ScriptGetIsotropicRemeshingSettings(o) ==
      Isotropic.IsotropicRemeshingSettingsFor(o).(preserveTexCoordSplits := true)
    ensures ScriptGetIsotropicRemeshingSettings(Isotropic.DefaultIsotropicOptions) == API.DefaultIsotropicRemeshingSettings
  {
    Isotropic.DefaultsMatchSDKDefaults();
  }

  /** The UV split property of the script object never reaches the SDK. */
  lemma ScriptPreserveUVSplitsIgnored(o: Isotropic.IsotropicOptions)
    ensures ScriptGetIsotropicRemeshingSettings(o.(preserveUVSplits := false))
         == ScriptGetIsotropicRemeshingSettings(o.(preserveUVSplits := true))
  {
  }

  // ---------------------------------------------------------------------
  // UInstaLODOcclusionCullSettings

  datatype ScriptOcclusionCullSettings = ScriptOcclusionCullSettings(
    mode: API.OcclusionCullMode,
    cullingStrategy: API.OcclusionCullingStrategy,
    dataUsage: Cull.CullDataUsage,
    automaticPrecision: Importance,
    resolution: int,
    precision: Importance,
    adjacencyDepth: int)

  /** The property initialisers of the header. */
  const DefaultScriptOcclusionCullSettings := ScriptOcclusionCullSettings(
    mode := API.AutomaticInterior, cullingStrategy := API.Face, dataUsage := Cull.DataRemoveGeometry,
    automaticPrecision := Normal, resolution := 1024, precision := Normal, adjacencyDepth := 5)

  /** `GetOcclusionCullSettings`, in the order of its assignments: the
    * automatic precision is first taken from its own property and then
    * overwritten with the precision. Nothing else is set. */
  function ScriptGetOcclusionCullSettings(s: ScriptOcclusionCullSettings): (r: API.OcclusionCullSettings)
    ensures FromSDKImportance(r.automaticPrecision) == s.precision
    ensures r.mode == s.mode && r.cullingStrategy == s.cullingStrategy && r.dataUsage == Cull.ToSDKDataUsage(s.dataUsage)
    ensures r.resolution == API.UInt32(s.resolution) && r.adjacencyDepth == API.UInt32(s.adjacencyDepth)
    ensures r.(mode := API.DefaultOcclusionCullSettings.mode,
               cullingStrategy := API.DefaultOcclusionCullSettings.cullingStrategy,
               dataUsage := API.DefaultOcclusionCullSettings.dataUsage,
               automaticPrecision := API.DefaultOcclusionCullSettings.automaticPrecision,
               resolution := API.DefaultOcclusionCullSettings.resolution,
               adjacencyDepth := API.DefaultOcclusionCullSettings.adjacencyDepth)
         == API.DefaultOcclusionCullSettings
  {
    ImportanceCastIsBijection(s.precision, Normal);
    var first := API.DefaultOcclusionCullSettings.(
      mode := s.mode,
      automaticPrecision := ToSDKImportance(s.automaticPrecision),
      cullingStrategy := s.cullingStrategy,
      dataUsage := Cull.ToSDKDataUsage(s.dataUsage),
      resolution := API.UInt32(s.resolution));
    first.(automaticPrecision := ToSDKImportance(s.precision), adjacencyDepth := API.UInt32(s.adjacencyDepth))
  }

  /** The automatic precision property has no effect. */
  lemma ScriptAutomaticPrecisionIgnored(s: ScriptOcclusionCullSettings, p: Importance)
    ensures ScriptGetOcclusionCullSettings(s.(automaticPrecision := p)) == ScriptGetOcclusionCullSettings(s)
  {
  }

  /** For the same choices the script sends what the tool sends, except
    * that it leaves back faces in the visibility test and the sub-mesh
    * face threshold at its SDK default. */
  lemma ScriptOcclusionCullAgreesWithTool(s: ScriptOcclusionCullSettings, o: Cull.CullOptions)
    requires o.mode == s.mode && o.cullingStrategy == s.cullingStrategy && o.dataUsage == s.dataUsage
    requires o.resolution == s.resolution && o.precision == s.precision && o.adjacencyDepth == s.adjacencyDepth
    ensures ScriptGetOcclusionCullSettings(s) ==
      Cull.OcclusionCullSettingsFor(o).(ignoreBackface := API.DefaultOcclusionCullSettings.ignoreBackface,
        subMeshVisbilityFaceThreshold := API.DefaultOcclusionCullSettings.subMeshVisbilityFaceThreshold)
    ensures !ScriptGetOcclusionCullSettings(s).ignoreBackface
  {
  }

  // ---------------------------------------------------------------------
  // UInstaLODImposterizeSettings: the same properties as the tool's
  // options, with initialisers of its own.

  /** The property initialisers of the header. */
  const DefaultScriptImposterizeSettings := Imposterize.ImposterizeOptions(
    imposterizeType := Imposterize.ImposterBillboard, gutterSizeInPixels := 2,
    xyAxisQuadsBillboard := 0, xzAxisQuadsBillboard := 1, yzAxisQuadsBillboard := 1,
    twoSidedQuadsBillboard := true, subdivisionsU := 1, subdivisionsV := 1,
    aabbDisplacement := 0, vistaDistance := 1.0, parallelImposterPlane := true,
    maximumFaceCount := 700, xyAxisQuads := false, xzAxisQuads := false, yzAxisQuads := true,
    twoSidedQuadsHybrid := true, cloudNormal := API.Vec3(0.35, 0.4, 0.8),
    cloudNormalConformity := 0.5, hybridCloudPolyMaterialSuffix := "_cloudpoly",
    flipbookFramesPerAxis := 8, hybridMeshFaceFactor := 50.0, alphaCutOutEnabled := false,
    alphaCutOutSubdivideEnabled := false, alphaCutOutResolution := 16, deterministic := false)

  /** The numeric value of an imposter type (its position in the header). */
  function ImposterizeTypeOrdinal(t: Imposterize.ImposterizeType): (n: nat)
    ensures n < 5
  {
    match t
    case ImposterAABB => 0
    case ImposterBillboard => 1
    case ImposterHybridBillboardCloud => 2
    case ImposterFlipbook => 3
    case ImposterVista => 4
  }

  /** `GetImposterizeSettings`: the type is cast by number, with no custom
    * geometry ever attached; the face factor goes from percent to a
    * fraction; the bake engine is the CPU, and the bake output and alpha
    * mask threshold keep the SDK defaults. */
  function ScriptGetImposterizeSettings(o: Imposterize.ImposterizeOptions): (r: API.ImposterizeSettings)
    ensures r.imposterType == API.ImposterTypeFromOrdinal(ImposterizeTypeOrdinal(o.imposterizeType))
    ensures !r.hasCustomGeometry
    ensures r.cloudPolyFaceFactor * 100.0 == o.hybridMeshFaceFactor
    ensures r.bakeEngine == API.CPU && r.bakeOutput == API.DefaultBakeOutputSettings
    ensures r.alphaMaskThreshold == API.DefaultImposterizeSettings.alphaMaskThreshold
  {
    API.DefaultImposterizeSettings.(
      imposterType := API.ImposterTypeFromOrdinal(ImposterizeTypeOrdinal(o.imposterizeType)),
      flipbookFramesPerAxis := API.UInt32(o.flipbookFramesPerAxis),
      hasCustomGeometry := false,
      aabbDisplacement := o.aabbDisplacement as real,
      quadXYCount := API.UInt32(o.xyAxisQuadsBillboard),
      quadXZCount := API.UInt32(o.xzAxisQuadsBillboard),
      quadYZCount := API.UInt32(o.yzAxisQuadsBillboard),
      enableQuadTwoSided := o.twoSidedQuadsBillboard,
      quadSubdivisionsU := API.UInt32(o.subdivisionsU),
      quadSubdivisionsV := API.UInt32(o.subdivisionsV),
      cloudFaceCount := API.UInt32(o.maximumFaceCount),
      cloudPolyFaceFactor := o.hybridMeshFaceFactor / 100.0,
      enableCloudQuadXY := o.xyAxisQuads,
      enableCloudQuadXZ := o.xzAxisQuads,
      enableCloudQuadYZ := o.yzAxisQuads,
      enableCloudQuadTwoSided := o.twoSidedQuadsHybrid,
      cloudNormal := o.cloudNormal,
      cloudNormalConformity := o.cloudNormalConformity,
      alphaCutOut := o.alphaCutOutEnabled,
      alphaCutOutSubdivide := o.alphaCutOutSubdivideEnabled,
      alphaCutOutResolution := API.UInt32(o.alphaCutOutResolution),
      gutterSizeInPixels := API.UInt32(o.gutterSizeInPixels),
      bakeEngine := API.CPU,
      deterministic := o.deterministic)
  }

  /** The cast by number and the tool's explicit vista case pick the same
    * SDK type, so the script sends what the tool sends with the SDK's
    * default bake output; a vista script asks for custom geometry without
    * providing any. */
  lemma ScriptImposterizeAgreesWithTool(o: Imposterize.ImposterizeOptions)
    ensures ScriptGetImposterizeSettings(o) ==
      Imposterize.ImposterizeSettingsFor(o, API.DefaultBakeOutputSettings, API.DefaultImposterizeSettings.alphaMaskThreshold)
    ensures o.imposterizeType == Imposterize.ImposterVista ==>
      ScriptGetImposterizeSettings(o).imposterType == API.CustomGeometry && !ScriptGetImposterizeSettings(o).hasCustomGeometry
  {
  }
}
