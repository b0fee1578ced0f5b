/** The data model of the InstaLOD SDK as the plugin sees it through its public
  * header: constants, enumerations, the settings structures with the defaults
  * their constructors give, skinning data, the mesh validity contract, the
  * component value getter and the API version number.
  *
  * Enumerations are datatypes whose constructors are listed in the order of
  * the header, so that a constructor's position is its numeric value.
  * `float` fields are `real`; `uint32` fields are `nat`.
  */
module InstaLODAPI {
  import opened Wrappers

  // ---------------------------------------------------------------------
  // Constants

  const MaxMeshTexCoords: nat := 8
  const MaxMeshColorSets: nat := 4
  /** `~0u`: the bone index of an unused influence slot. */
  const BoneIndexInvalid: nat := 0xFFFF_FFFF

  /** The mesh attribute numbering: colour sets start at 9 and the texture
    * coordinate sets follow the last colour set. */
  const AttributeTypeWedgeColors0: nat := 9
  const AttributeTypeWedgeColorsMax: nat := AttributeTypeWedgeColors0 + MaxMeshColorSets
  const AttributeTypeWedgeTexCoords0: nat := AttributeTypeWedgeColorsMax
  const AttributeTypeWedgeTexCoordsMax: nat := AttributeTypeWedgeTexCoords0 + MaxMeshTexCoords

  /** The attribute number of wedge colour set `index`. */
  function WedgeColorsAttribute(index: nat): (r: nat)
    requires index < MaxMeshColorSets
    ensures AttributeTypeWedgeColors0 <= r < AttributeTypeWedgeColorsMax
    ensures r - AttributeTypeWedgeColors0 == index
  {
    AttributeTypeWedgeColors0 + index
  }

  /** The attribute number of texture coordinate set `index`. */
  function WedgeTexCoordsAttribute(index: nat): (r: nat)
    requires index < MaxMeshTexCoords
    ensures AttributeTypeWedgeTexCoords0 <= r < AttributeTypeWedgeTexCoordsMax
    ensures r - AttributeTypeWedgeTexCoords0 == index
  {
    AttributeTypeWedgeTexCoords0 + index
  }

  /** Colour sets occupy 9..12 and texture coordinate sets 13..20: no attribute
    * number belongs to both. */
  lemma AttributeRangesDisjoint(c: nat, t: nat)
    requires c < MaxMeshColorSets && t < MaxMeshTexCoords
    ensures WedgeColorsAttribute(c) != WedgeTexCoordsAttribute(t)
    ensures AttributeTypeWedgeTexCoords0 == 13 && AttributeTypeWedgeTexCoordsMax == 21
  {
  }

  // ---------------------------------------------------------------------
  // API version: `((MAJOR) << 16) | ((MINOR) & 0xFFFF)`. The two operands of
  // the `|` occupy disjoint bits whenever the major number fits in 16 bits,
  // so the packed number is `major * 65536 + minor mod 65536`.

  const ApiVersionMajor: nat := 6
  const ApiVersionMinor: nat := 11

  function ApiVersionOf(major: nat, minor: nat): (v: nat)
    ensures v / 0x1_0000 == major
    ensures v % 0x1_0000 == minor % 0x1_0000
  {
    DivModUnique(major * 0x1_0000 + minor % 0x1_0000, major, minor % 0x1_0000, 0x1_0000);
    major * 0x1_0000 + minor % 0x1_0000
  }

  const ApiVersion: nat := ApiVersionOf(ApiVersionMajor, ApiVersionMinor)

  /** The packed version is 0x6000B, and it unpacks to 6 and 11. */
  lemma ApiVersionValue()
    ensures ApiVersion == 0x6_000B
    ensures ApiVersion / 0x1_0000 == 6 && ApiVersion % 0x1_0000 == 11
  {
  }

  /** Quotient and remainder are determined by `x == q * m + r`, `0 <= r < m`. */
  lemma DivModUnique(x: int, q: int, r: int, m: int)
    requires m > 0 && 0 <= r < m && x == q * m + r
    ensures x / m == q && x % m == r
  {
    var q2, r2 := x / m, x % m;
    assert x == q2 * m + r2;
    if q2 > q {
      assert q2 * m >= (q + 1) * m by { MulMonotone(q + 1, q2, m); }
      assert false;
    } else if q2 < q {
      assert q * m >= (q2 + 1) * m by { MulMonotone(q2 + 1, q, m); }
      assert false;
    }
  }

  lemma MulMonotone(a: int, b: int, m: int)
    requires a <= b && m >= 0
    ensures a * m <= b * m
  {
    assert b * m - a * m == (b - a) * m;
  }

  // ---------------------------------------------------------------------
  // Enumerations

  datatype MeshFeatureImportance = Off | Lowest | Low | Normal | High | Highest
  datatype TextureFilter = Nearest | Bilinear | Bicubic
  datatype SuperSampling = SSNone | X2 | X4 | X8 | X16
  datatype MeshFormat = DirectX | OpenGL
  datatype BakeEngine = CPU | GPU
  datatype UnwrapStrategy = Organic | HardSurfaceAngle | HardSurfaceAxial | Auto
  datatype RemeshFaceCountTarget = FaceLowest | FaceLow | FaceNormal | FaceHigh | FaceHighest
  datatype RemeshSurfaceMode = Reconstruct | SurfaceOptimize | ConvexHull | SurfaceUV
  datatype IsotropicRemeshingEdgeMode = Automatic | Absolute | BoundingSphereRelative
  datatype AlgorithmStrategy = StrategyDefault | IgnoreAttributes | DiscardAttributes | SmartV1Legacy | SmartV2
  datatype NormalHealingMode = HealingOff | HealingMinimal | HealingDefault
  datatype UVPackShellRotation = RotationNone | Allow90 | Arbitrary
  datatype MeshMergeMode = AutoRepack | Transfer
  datatype ImposterType = AABB | Billboard | HybridBillboardCloud | Flipbook | CustomGeometry
  datatype OcclusionCullingStrategy = Face | SubMeshByFaceSubMeshIndices | SubMeshByFaceAdjacency
  datatype OcclusionCullDataUsage = RemoveGeometry | WriteWedgeColors | WriteOptimizerWeights | WriteOptimizerWeightsToWedgeColors
  datatype OcclusionCullMode = AutomaticInterior | CameraBased

  /** The numeric value of an importance level (its position in the header). */
  function ImportanceOrdinal(i: MeshFeatureImportance): (n: nat)
    ensures n < 6
  {
    match i
    case Off => 0 case Lowest => 1 case Low => 2
    case Normal => 3 case High => 4 case Highest => 5
  }

  function SuperSamplingFromOrdinal(n: nat): (s: SuperSampling)
    requires n < 5
    ensures n == 0 <==> s == SSNone
  {
    if n == 0 then SSNone else if n == 1 then X2 else if n == 2 then X4
    else if n == 3 then X8 else X16
  }

  function ImposterTypeFromOrdinal(n: nat): (t: ImposterType)
    requires n < 5
    ensures n == 4 <==> t == CustomGeometry
  {
    if n == 0 then AABB else if n == 1 then Billboard else if n == 2 then HybridBillboardCloud
    else if n == 3 then Flipbook else CustomGeometry
  }

  function DataUsageFromOrdinal(n: nat): (u: OcclusionCullDataUsage)
    requires n < 4
    ensures n == 0 <==> u == RemoveGeometry
  {
    if n == 0 then RemoveGeometry else if n == 1 then WriteWedgeColors
    else if n == 2 then WriteOptimizerWeights else WriteOptimizerWeightsToWedgeColors
  }

  // ---------------------------------------------------------------------
  // Settings structures and their constructor defaults

  datatype Vec3 = Vec3(x: real, y: real, z: real)

  datatype SkeletonOptimizeSettings = SkeletonOptimizeSettings(
    leafBoneWeldDistance: real,
    maximumBoneDepth: nat,
    maximumBoneInfluencesPerVertex: nat,
    minimumBoneInfluenceThreshold: real)

  const DefaultSkeletonOptimizeSettings := SkeletonOptimizeSettings(0.0, 0, 0, 0.0)

  datatype OptimizeSettings = OptimizeSettings(
    algorithmStrategy: AlgorithmStrategy,
    automaticQuality: MeshFeatureImportance,
    percentTriangles: real,
    absoluteTriangles: nat,
    maxDeviation: real,
    weldingThreshold: real,
    weldingProtectDistinctUVShells: bool,
    healTJunctionThreshold: real,
    screenSizeInPixels: nat,
    optimizerVertexWeights: bool,
    optimalPlacement: bool,
    recalculateNormals: bool,
    hardAngleThreshold: real,
    weightedNormals: bool,
    lockBoundaries: bool,
    lockSplits: bool,
    protectSplits: bool,
    protectBoundaries: bool,
    normalizeMeshScale: bool,
    skeletonOptimize: SkeletonOptimizeSettings,
    boundaryImportance: MeshFeatureImportance,
    textureImportance: MeshFeatureImportance,
    shadingImportance: MeshFeatureImportance,
    silhouetteImportance: MeshFeatureImportance,
    skinningImportance: MeshFeatureImportance,
    deterministic: bool)

  const DefaultOptimizeSettings := OptimizeSettings(
    algorithmStrategy := SmartV2, automaticQuality := Off,
    percentTriangles := 1.0, absoluteTriangles := 0, maxDeviation := 0.0,
    weldingThreshold := 0.0, weldingProtectDistinctUVShells := true,
    healTJunctionThreshold := 0.0, screenSizeInPixels := 0,
    optimizerVertexWeights := false, optimalPlacement := true,
    recalculateNormals := false, hardAngleThreshold := 70.0, weightedNormals := true,
    lockBoundaries := false, lockSplits := false, protectSplits := true,
    protectBoundaries := true, normalizeMeshScale := false,
    skeletonOptimize := DefaultSkeletonOptimizeSettings,
    boundaryImportance := Normal, textureImportance := Normal,
    shadingImportance := Normal, silhouetteImportance := Normal,
    skinningImportance := Normal, deterministic := false)

  datatype BakeOutputSettings = BakeOutputSettings(
    sourceMeshUVChannelIndex: nat,
    solidifyTexturePages: bool,
    superSampling: SuperSampling,
    computeBinormalPerFragment: bool,
    normalizeTangentSpacePerFragment: bool,
    tangentSpaceFormat: MeshFormat,
    textureFilter: TextureFilter,
    texturePageNormalTangentSpace: bool,
    texturePageNormalObjectSpace: bool,
    texturePageMeshID: bool,
    texturePageVertexColor: bool,
    texturePageAmbientOcclusion: bool,
    texturePageBentNormals: bool,
    texturePageThickness: bool,
    texturePageDisplacement: bool,
    texturePagePosition: bool,
    texturePageCurvature: bool,
    texturePageTransfer: bool,
    texturePageReflectance: bool,
    texturePageOpacity: bool,
    ambientOcclusionSampleCount: nat,
    thicknessSampleCount: nat,
    autoDelightColorOutput: bool,
    normalizePositionByAABB: bool)

  const DefaultBakeOutputSettings := BakeOutputSettings(
    sourceMeshUVChannelIndex := 0, solidifyTexturePages := true, superSampling := X2,
    computeBinormalPerFragment := false, normalizeTangentSpacePerFragment := false,
    tangentSpaceFormat := OpenGL, textureFilter := Bilinear,
    texturePageNormalTangentSpace := false, texturePageNormalObjectSpace := true,
    texturePageMeshID := false, texturePageVertexColor := false,
    texturePageAmbientOcclusion := false, texturePageBentNormals := false,
    texturePageThickness := false, texturePageDisplacement := false,
    texturePagePosition := false, texturePageCurvature := false,
    texturePageTransfer := false, texturePageReflectance := false,
    texturePageOpacity := false, ambientOcclusionSampleCount := 16,
    thicknessSampleCount := 16, autoDelightColorOutput := false,
    normalizePositionByAABB := true)

  datatype RemeshingSettings = RemeshingSettings(
    surfaceMode: RemeshSurfaceMode,
    distinctSurfaceConstructionPerMesh: bool,
    surfaceConstructionIgnoreBackface: bool,
    resolution: nat,
    faceCountTarget: RemeshFaceCountTarget,
    maximumTriangles: nat,
    screenSizeInPixels: nat,
    screenSizePixelMergeDistance: nat,
    screenSizeInPixelsAutomaticTextureSize: bool,
    hardAngleThreshold: real,
    weldDistance: real,
    gutterSizeInPixels: nat,
    alphaMaskThreshold: real,
    ignoreBackface: bool,
    unwrapStrategy: UnwrapStrategy,
    stretchImportance: MeshFeatureImportance,
    shellStitching: bool,
    insertNormalSplits: bool,
    postProcessLayout: bool,
    surfaceModeOptimizeLockBoundaries: bool,
    bakeEngine: BakeEngine,
    bakeOutput: BakeOutputSettings,
    deterministic: bool)

  const DefaultRemeshingSettings := RemeshingSettings(
    surfaceMode := Reconstruct, distinctSurfaceConstructionPerMesh := false,
    surfaceConstructionIgnoreBackface := false, resolution := 256,
    faceCountTarget := FaceNormal, maximumTriangles := 0, screenSizeInPixels := 0,
    screenSizePixelMergeDistance := 2, screenSizeInPixelsAutomaticTextureSize := false,
    hardAngleThreshold := 70.0, weldDistance := 0.0, gutterSizeInPixels := 5,
    alphaMaskThreshold := 1.0, ignoreBackface := true, unwrapStrategy := Auto,
    stretchImportance := Normal, shellStitching := true, insertNormalSplits := false,
    postProcessLayout := true, surfaceModeOptimizeLockBoundaries := false,
    bakeEngine := CPU, bakeOutput := DefaultBakeOutputSettings, deterministic := false)

  datatype IsotropicRemeshingSettings = IsotropicRemeshingSettings(
    edgeMode: IsotropicRemeshingEdgeMode,
    targetEdgeSize: real,
    precision: MeshFeatureImportance,
    weldingThreshold: real,
    geometricFeatureAngleInDegrees: real,
    collapseThreshold: real,
    preserveColorSplits: bool,
    preserveTexCoordSplits: bool,
    preserveNormalSplits: bool,
    preserveVolume: bool,
    recalculateNormals: bool,
    hardAngleThreshold: real,
    weightedNormals: bool,
    deterministic: bool)

  const DefaultIsotropicRemeshingSettings := IsotropicRemeshingSettings(
    edgeMode := Automatic, targetEdgeSize := 1.0, precision := Normal,
    weldingThreshold := 0.0, geometricFeatureAngleInDegrees := 0.0,
    collapseThreshold := 0.75, preserveColorSplits := false,
    preserveTexCoordSplits := true, preserveNormalSplits := false,
    preserveVolume := false, recalculateNormals := false,
    hardAngleThreshold := 80.0, weightedNormals := true, deterministic := false)

  datatype ImposterizeSettings = ImposterizeSettings(
    imposterType: ImposterType,
    flipbookFramesPerAxis: nat,
    hasCustomGeometry: bool,
    aabbDisplacement: real,
    quadXYCount: nat,
    quadXZCount: nat,
    quadYZCount: nat,
    enableQuadTwoSided: bool,
    quadSubdivisionsU: nat,
    quadSubdivisionsV: nat,
    cloudFaceCount: nat,
    cloudPolyFaceFactor: real,
    enableCloudQuadXY: bool,
    enableCloudQuadXZ: bool,
    enableCloudQuadYZ: bool,
    enableCloudQuadTwoSided: bool,
    cloudNormal: Vec3,
    cloudNormalConformity: real,
    alphaMaskThreshold: real,
    gutterSizeInPixels: nat,
    alphaCutOut: bool,
    alphaCutOutResolution: nat,
    alphaCutOutSubdivide: bool,
    bakeEngine: BakeEngine,
    bakeOutput: BakeOutputSettings,
    deterministic: bool)

  const DefaultImposterizeSettings := ImposterizeSettings(
    imposterType := Billboard, flipbookFramesPerAxis := 8, hasCustomGeometry := false,
    aabbDisplacement := 0.0, quadXYCount := 1, quadXZCount := 1, quadYZCount := 0,
    enableQuadTwoSided := true, quadSubdivisionsU := 1, quadSubdivisionsV := 1,
    cloudFaceCount := 700, cloudPolyFaceFactor := 0.5, enableCloudQuadXY := true,
    enableCloudQuadXZ := false, enableCloudQuadYZ := true,
    enableCloudQuadTwoSided := false, cloudNormal := Vec3(0.35, 0.85, 0.4),
    cloudNormalConformity := 0.5, alphaMaskThreshold := 1.0, gutterSizeInPixels := 5,
    alphaCutOut := false, alphaCutOutResolution := 16, alphaCutOutSubdivide := false,
    bakeEngine := CPU, bakeOutput := DefaultBakeOutputSettings, deterministic := false)

  datatype UnwrapSettings = UnwrapSettings(
    unwrapStrategy: UnwrapStrategy,
    textureWidth: nat,
    textureHeight: nat,
    gutterSizeInPixels: nat,
    stretchImportance: MeshFeatureImportance,
    texCoordIndexOutput: nat,
    shellStitching: bool,
    insertNormalSplits: bool,
    uvScale: real,
    postProcessLayout: bool,
    deterministic: bool)

  const DefaultUnwrapSettings := UnwrapSettings(
    unwrapStrategy := Auto, textureWidth := 1024, textureHeight := 1024,
    gutterSizeInPixels := 5, stretchImportance := Normal, texCoordIndexOutput := 0,
    shellStitching := true, insertNormalSplits := true, uvScale := 1.0,
    postProcessLayout := true, deterministic := false)

  datatype MeshMergeSettings = MeshMergeSettings(
    mode: MeshMergeMode,
    superSampling: SuperSampling,
    textureFilter: TextureFilter,
    solidifyTexturePages: bool,
    stackDuplicateShells: bool,
    insertNormalSplits: bool,
    computeBinormalPerFragment: bool,
    normalizeTangentSpacePerFragment: bool,
    worldspaceNormalizeShells: bool,
    gutterSizeInPixels: nat,
    texCoordIndexInput: nat,
    texCoordIndexOutput: nat,
    shellRotation: UVPackShellRotation,
    generateZeroAreaUV: bool,
    zeroAreaUVThreshold: real,
    uvImportance: MeshFeatureImportance,
    geometricImportance: MeshFeatureImportance,
    textureImportance: MeshFeatureImportance,
    visualImportance: MeshFeatureImportance,
    deterministic: bool)

  const DefaultMeshMergeSettings := MeshMergeSettings(
    mode := AutoRepack, superSampling := X2, textureFilter := Bilinear,
    solidifyTexturePages := true, stackDuplicateShells := true,
    insertNormalSplits := true, computeBinormalPerFragment := false,
    normalizeTangentSpacePerFragment := false, worldspaceNormalizeShells := true,
    gutterSizeInPixels := 5, texCoordIndexInput := 0, texCoordIndexOutput := 0,
    shellRotation := Arbitrary, generateZeroAreaUV := false,
    zeroAreaUVThreshold := 0.0000000001, uvImportance := Normal,
    geometricImportance := Normal, textureImportance := Normal,
    visualImportance := Normal, deterministic := false)

  datatype OcclusionCullSettings = OcclusionCullSettings(
    mode: OcclusionCullMode,
    cullingStrategy: OcclusionCullingStrategy,
    dataUsage: OcclusionCullDataUsage,
    automaticPrecision: MeshFeatureImportance,
    resolution: nat,
    adjacencyDepth: nat,
    subMeshVisbilityFaceThreshold: nat,
    ignoreBackface: bool,
    alphaMaskThreshold: real,
    optimizerWeight: real,
    deterministic: bool)

  const DefaultOcclusionCullSettings := OcclusionCullSettings(
    mode := AutomaticInterior, cullingStrategy := SubMeshByFaceAdjacency,
    dataUsage := RemoveGeometry, automaticPrecision := Normal, resolution := 1024,
    adjacencyDepth := 5, subMeshVisbilityFaceThreshold := 1, ignoreBackface := false,
    alphaMaskThreshold := 1.0, optimizerWeight := -0.8, deterministic := false)

  datatype MeshToolKitSettings = MeshToolKitSettings(
    weldingThreshold: real,
    weldingNormalAngleThreshold: real,
    weldingBoundaries: bool,
    healTJunctionThreshold: real,
    removeDegenerateFacesThreshold: real,
    fixNonManifold: bool,
    conformNormals: bool,
    conformWindingOrder: bool,
    flipNormals: bool,
    flipWindingOrder: bool,
    fillHoles: bool,
    normalHealingMode: NormalHealingMode,
    recalculateNormals: bool,
    hardAngleThreshold: real,
    weightedNormals: bool,
    minimumSubMeshBoundingSphereRadius: real,
    minimumFaceArea: real,
    deterministic: bool)

  const DefaultMeshToolKitSettings := MeshToolKitSettings(
    weldingThreshold := 0.0, weldingNormalAngleThreshold := 80.0,
    weldingBoundaries := false, healTJunctionThreshold := 0.0,
    removeDegenerateFacesThreshold := 0.0, fixNonManifold := false,
    conformNormals := false, conformWindingOrder := false, flipNormals := false,
    flipWindingOrder := false, fillHoles := false, normalHealingMode := HealingOff,
    recalculateNormals := false, hardAngleThreshold := 80.0, weightedNormals := true,
    minimumSubMeshBoundingSphereRadius := 0.0, minimumFaceArea := 0.0,
    deterministic := false)

  // ---------------------------------------------------------------------
  // Integer conversions

  /** A C++ conversion of a signed value to `uint32`: wraps modulo 2^32. */
  function UInt32(x: int): (r: nat)
    ensures r < 0x1_0000_0000
    ensures 0 <= x < 0x1_0000_0000 ==> r == x
  {
    x % 0x1_0000_0000
  }

  // ---------------------------------------------------------------------
  // Skinning data

  datatype BoneData = BoneData(boneIndex: nat, boneInfluence: real)

  /** What the bone data constructor leaves in a slot: no bone, no weight. */
  const DefaultBoneData := BoneData(BoneIndexInvalid, 0.0)

  /** Per-vertex bone influences: `maximumInfluencesPerVertex` slots per
    * vertex, stored vertex after vertex. */
  datatype SkinnedVertexData = SkinnedVertexData(
    vertexCount: nat, maximumInfluencesPerVertex: nat, boneData: seq<BoneData>)

  predicate SkinnedDataWellFormed(d: SkinnedVertexData) {
    |d.boneData| == d.vertexCount * d.maximumInfluencesPerVertex
  }

  /** `Initialize(vertexCount, maximumInfluencePerVertex)`: every slot holds the
    * default bone data. */
  function InitializeSkinnedData(vertexCount: nat, maximumInfluences: nat): (d: SkinnedVertexData)
    ensures SkinnedDataWellFormed(d)
    ensures d.vertexCount == vertexCount && d.maximumInfluencesPerVertex == maximumInfluences
    ensures forall k :: 0 <= k < |d.boneData| ==> d.boneData[k] == DefaultBoneData
  {
    SkinnedVertexData(vertexCount, maximumInfluences,
      seq(vertexCount * maximumInfluences, _ => DefaultBoneData))
  }

  /** Index of influence `influence` of vertex `vertex` in the bone data array. */
  function BoneSlot(d: SkinnedVertexData, vertex: nat, influence: nat): (k: nat)
    requires SkinnedDataWellFormed(d)
    requires vertex < d.vertexCount && influence < d.maximumInfluencesPerVertex
    ensures k < |d.boneData|
    ensures k / d.maximumInfluencesPerVertex == vertex
    ensures k % d.maximumInfluencesPerVertex == influence
  {
    SlotBound(vertex, influence, d.vertexCount, d.maximumInfluencesPerVertex);
    vertex * d.maximumInfluencesPerVertex + influence
  }

  lemma SlotBound(v: nat, i: nat, n: nat, m: nat)
    requires v < n && i < m
    ensures v * m + i < n * m
    ensures (v * m + i) / m == v && (v * m + i) % m == i
  {
    MulMonotone(v + 1, n, m);
    assert (v + 1) * m == v * m + m;
    DivModUnique(v * m + i, v, i, m);
  }

  // ---------------------------------------------------------------------
  // Mesh validity

  datatype Vec2 = Vec2(x: real, y: real)
  datatype ColorRGBAF32 = ColorRGBAF32(r: real, g: real, b: real, a: real)

  /** The attribute arrays of an InstaLOD mesh. `wedgeTexCoords` and
    * `wedgeColors` hold one array per set; an empty array is an unused set. */
  datatype Mesh = Mesh(
    vertexPositions: seq<Vec3>,
    vertexOptimizerWeights: seq<real>,
    wedgeIndices: seq<nat>,
    wedgeNormals: seq<Vec3>,
    wedgeBinormals: seq<Vec3>,
    wedgeTangents: seq<Vec3>,
    wedgeTexCoords: seq<seq<Vec2>>,
    wedgeColors: seq<seq<ColorRGBAF32>>,
    faceMaterialIndices: seq<int>,
    faceSmoothingGroups: seq<nat>,
    faceSubMeshIndices: seq<nat>)

  /** `IInstaLODMesh::IsValid` as its documentation states it: the minimum
    * data is present, every non-empty vertex, wedge and face array has the
    * size of the positions, of the wedge indices and of a third of the wedge
    * indices, and every wedge index names a vertex. */
  predicate MeshIsValid(m: Mesh) {
    var w := |m.wedgeIndices|;
    var f := w / 3;
    |m.wedgeTexCoords| == MaxMeshTexCoords && |m.wedgeColors| == MaxMeshColorSets
    // minimum requirements
    && |m.vertexPositions| > 0 && w > 0
    && |m.wedgeNormals| == w && |m.wedgeBinormals| == w && |m.wedgeTangents| == w
    && |m.wedgeTexCoords[0]| == w
    && |m.faceMaterialIndices| == f && |m.faceSmoothingGroups| == f
    // optional arrays, when present
    && (|m.vertexOptimizerWeights| == 0 || |m.vertexOptimizerWeights| == |m.vertexPositions|)
    && (forall t :: 0 <= t < MaxMeshTexCoords ==> |m.wedgeTexCoords[t]| == 0 || |m.wedgeTexCoords[t]| == w)
    && (forall c :: 0 <= c < MaxMeshColorSets ==> |m.wedgeColors[c]| == 0 || |m.wedgeColors[c]| == w)
    && (|m.faceSubMeshIndices| == 0 || |m.faceSubMeshIndices| == f)
    // integrity of the wedge indices
    && (forall k :: 0 <= k < w ==> m.wedgeIndices[k] < |m.vertexPositions|)
  }

  // ---------------------------------------------------------------------
  // Component values

  /** `GetValue(index, value)`: `data` is what `GetDataForComponentAtIndex`
    * finds (`None` for a null pointer). Returns the success flag and the new
    * content of `value`. */
  function GetValue<T>(data: Option<T>, value: T): (r: (bool, T))
    ensures r.0 <==> data.Some?
    ensures r.0 ==> r.1 == data.value
    ensures !r.0 ==> r.1 == value
  {
    match data
    case Some(v) => (true, v)
    case None => (false, value)
  }
}
