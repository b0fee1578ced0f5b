/** `UInstaLODImposterizeTool`: builds a stand-in mesh (billboards, a box, a
  * billboard cloud, a flipbook, or a camera-facing "vista" plane) and bakes
  * the original's appearance onto it.
  *
  * The tool is modelled by composition: `bake` is its bake-tool part, and
  * `bake.base` its base-tool part. Meshes handed to the operation are
  * modelled by their faces: each face keeps its material index, and
  * `geometry` stands for everything else it carries.
  */
module InstaLODImposterizeTool {
  import opened Wrappers
  import opened UEString
  import opened Json
  import API = InstaLODAPI
  import opened InstaLODTypes
  import opened InstaLODWindow
  import opened InstaLODBaseTool
  import opened InstaLODMaterial
  import opened InstaLODBakeBaseTool

  /** The plugin's imposter types: the SDK's first four, in the SDK's order,
    * and the vista plane. */
  datatype ImposterizeType = ImposterAABB | ImposterBillboard | ImposterHybridBillboardCloud | ImposterFlipbook | ImposterVista

  /** `GetImposterizeSettings`' type: a vista imposter is sent as custom
    * geometry, every other type is cast to the SDK type of the same name. */
  function ToSDKImposterType(t: ImposterizeType): (r: API.ImposterType)
    ensures r == API.CustomGeometry <==> t == ImposterVista
  {
    match t
    case ImposterAABB => API.AABB
    case ImposterBillboard => API.Billboard
    case ImposterHybridBillboardCloud => API.HybridBillboardCloud
    case ImposterFlipbook => API.Flipbook
    case ImposterVista => API.CustomGeometry
  }

  /** No two types reach the SDK as the same type. */
  lemma ImposterTypeCastInjective(t1: ImposterizeType, t2: ImposterizeType)
    ensures ToSDKImposterType(t1) == ToSDKImposterType(t2) ==> t1 == t2
  {
  }

  function ImposterTypeName(t: ImposterizeType): string {
    match t
    case ImposterAABB => "AABB"
    case ImposterBillboard => "Billboard"
    case ImposterHybridBillboardCloud => "HybridBillboardCloud"
    case ImposterFlipbook => "Flipbook"
    case ImposterVista => "Vista"
  }

  /** The "Type" of a profile (FString's `==` ignores case). A vista plane
    * cannot be chosen from a profile; any other name leaves the type as it
    * was. */
  function ImposterTypeForString(value: string, current: ImposterizeType): (r: ImposterizeType)
    ensures r == ImposterVista ==> current == ImposterVista
    ensures r == current || EqualsIgnoreCase(value, ImposterTypeName(r))
    ensures (forall t :: t != ImposterVista ==> !EqualsIgnoreCase(value, ImposterTypeName(t))) ==> r == current
  {
    if EqualsIgnoreCase(value, "Flipbook") then ImposterFlipbook
    else if EqualsIgnoreCase(value, "Billboard") then ImposterBillboard
    else if EqualsIgnoreCase(value, "AABB") then ImposterAABB
    else if EqualsIgnoreCase(value, "HybridBillboardCloud") then ImposterHybridBillboardCloud
    else current
  }

  lemma ImposterTypeNameRoundTrip(t: ImposterizeType, spelled: string, current: ImposterizeType)
    requires t != ImposterVista && EqualsIgnoreCase(spelled, ImposterTypeName(t))
    ensures ImposterTypeForString(spelled, current) == t
  {
    assert ToLower("Flipbook") == "flipbook";
    assert ToLower("Billboard") == "billboard";
    assert ToLower("AABB") == "aabb";
    assert ToLower("HybridBillboardCloud") == "hybridbillboardcloud";
  }

  /** The "CloudNormal" of a profile: three numbers separated by spaces; a
    * string that does not split into exactly three tokens leaves the normal
    * as it was. */
  function CloudNormalForString(value: string, current: API.Vec3): (r: API.Vec3)
    ensures |ParseIntoArray(value, ' ')| != 3 ==> r == current
  {
    var tokens := ParseIntoArray(value, ' ');
    if |tokens| == 3 then API.Vec3(Atof(tokens[0]), Atof(tokens[1]), Atof(tokens[2])) else current
  }

  /** Three tokens joined by single spaces split back into those tokens. */
  lemma ThreeTokens(a: string, b: string, c: string)
    requires |a| > 0 && |b| > 0 && |c| > 0
    requires ' ' !in a && ' ' !in b && ' ' !in c
    ensures ParseIntoArray(a + " " + b + " " + c, ' ') == [a, b, c]
  {
    ParseIntoArrayToken(c, "", ' ');
    ParseIntoArrayToken(b, c, ' ');
    ParseIntoArrayToken(a, b + " " + c, ' ');
    assert a + " " + b + " " + c == a + [' '] + (b + [' '] + c);
    assert b + " " + c == b + [' '] + c;
  }

  /** A normal written as three integers separated by single spaces is read
    * back as those integers. */
  lemma CloudNormalRoundTrip(x: nat, y: nat, z: nat, current: API.Vec3)
    ensures CloudNormalForString(FromInt(x) + " " + FromInt(y) + " " + FromInt(z), current)
      == API.Vec3(x as real, y as real, z as real)
  {
    var sx, sy, sz := FromInt(x), FromInt(y), FromInt(z);
    assert ' ' !in sx && ' ' !in sy && ' ' !in sz by {
      assert forall i :: 0 <= i < |sx| ==> sx[i] != ' ';
      assert forall i :: 0 <= i < |sy| ==> sy[i] != ' ';
      assert forall i :: 0 <= i < |sz| ==> sz[i] != ' ';
    }
    ThreeTokens(sx, sy, sz);
    AtofFromInt(x);
    AtofFromInt(y);
    AtofFromInt(z);
  }

  /** The tool's own options (the bake options live in the bake part). */
  datatype ImposterizeOptions = ImposterizeOptions(
    imposterizeType: ImposterizeType,
    gutterSizeInPixels: int,
    xyAxisQuadsBillboard: int,
    xzAxisQuadsBillboard: int,
    yzAxisQuadsBillboard: int,
    twoSidedQuadsBillboard: bool,
    subdivisionsU: int,
    subdivisionsV: int,
    aabbDisplacement: int,
    vistaDistance: real,
    parallelImposterPlane: bool,
    maximumFaceCount: int,
    xyAxisQuads: bool,
    xzAxisQuads: bool,
    yzAxisQuads: bool,
    twoSidedQuadsHybrid: bool,
    cloudNormal: API.Vec3,
    cloudNormalConformity: real,
    hybridCloudPolyMaterialSuffix: string,
    flipbookFramesPerAxis: int,
    hybridMeshFaceFactor: real,
    alphaCutOutEnabled: bool,
    alphaCutOutSubdivideEnabled: bool,
    alphaCutOutResolution: int,
    deterministic: bool)

  /** `ResetSettings`' values. The alpha cut-out options and the
    * deterministic flag are not reset and keep their values. */
  function ResetImposterizeOptions(o: ImposterizeOptions): (r: ImposterizeOptions)
    ensures r.alphaCutOutEnabled == o.alphaCutOutEnabled && r.alphaCutOutSubdivideEnabled == o.alphaCutOutSubdivideEnabled
    ensures r.alphaCutOutResolution == o.alphaCutOutResolution && r.deterministic == o.deterministic
    ensures r.imposterizeType == ImposterBillboard
    ensures r.xyAxisQuadsBillboard + r.xzAxisQuadsBillboard + r.yzAxisQuadsBillboard > 0
    ensures r.xyAxisQuads || r.xzAxisQuads || r.yzAxisQuads
  {
    o.(imposterizeType := ImposterBillboard, gutterSizeInPixels := 5,
       xyAxisQuadsBillboard := 0, xzAxisQuadsBillboard := 1, yzAxisQuadsBillboard := 1,
       twoSidedQuadsBillboard := true, subdivisionsU := 1, subdivisionsV := 1,
       aabbDisplacement := 0, vistaDistance := 1.0, parallelImposterPlane := true,
       maximumFaceCount := 400, xyAxisQuads := false, xzAxisQuads := true, yzAxisQuads := true,
       twoSidedQuadsHybrid := true, cloudNormal := API.Vec3(0.35, 0.4, 0.8),
       cloudNormalConformity := 0.5, hybridCloudPolyMaterialSuffix := "_cloudpoly",
       flipbookFramesPerAxis := 8, hybridMeshFaceFactor := 50.0)
  }

  /** Two resets in a row leave what one leaves. */
  lemma ResetImposterizeOptionsIdempotent(o: ImposterizeOptions)
    ensures ResetImposterizeOptions(ResetImposterizeOptions(o)) == ResetImposterizeOptions(o)
  {
  }

  /** The tool's options after reading the "Settings" object `s` over `o`.
    * The subdivisions, the box displacement, the vista options, the material
    * suffix and the alpha cut-out options are not read. The cloud poly face
    * factor is read as a fraction and kept as a percentage. */
  function ReadImposterizeOptions(s: Object, o: ImposterizeOptions): (r: ImposterizeOptions)
    ensures "Type" !in s ==> r.imposterizeType == o.imposterizeType
    ensures "CloudPolyFaceFactor" in s ==> r.hybridMeshFaceFactor == GetNumberField(s, "CloudPolyFaceFactor") * 100.0
    ensures "CloudPolyFaceFactor" !in s ==> r.hybridMeshFaceFactor == o.hybridMeshFaceFactor
    ensures r.subdivisionsU == o.subdivisionsU && r.subdivisionsV == o.subdivisionsV
    ensures r.aabbDisplacement == o.aabbDisplacement && r.hybridCloudPolyMaterialSuffix == o.hybridCloudPolyMaterialSuffix
    ensures r.vistaDistance == o.vistaDistance && r.parallelImposterPlane == o.parallelImposterPlane
    ensures r.alphaCutOutEnabled == o.alphaCutOutEnabled && r.alphaCutOutResolution == o.alphaCutOutResolution
  {
    ImposterizeOptions(
      imposterizeType :=
        if HasField(s, "Type") then ImposterTypeForString(GetStringField(s, "Type"), o.imposterizeType) else o.imposterizeType,
      gutterSizeInPixels := IntegerOr(s, "GutterSizeInPixels", o.gutterSizeInPixels),
      xyAxisQuadsBillboard := IntegerOr(s, "QuadXYCount", o.xyAxisQuadsBillboard),
      xzAxisQuadsBillboard := IntegerOr(s, "QuadXZCount", o.xzAxisQuadsBillboard),
      yzAxisQuadsBillboard := IntegerOr(s, "QuadYZCount", o.yzAxisQuadsBillboard),
      twoSidedQuadsBillboard := BoolOr(s, "EnableQuadTwoSided", o.twoSidedQuadsBillboard),
      subdivisionsU := o.subdivisionsU,
      subdivisionsV := o.subdivisionsV,
      aabbDisplacement := o.aabbDisplacement,
      vistaDistance := o.vistaDistance,
      parallelImposterPlane := o.parallelImposterPlane,
      maximumFaceCount := IntegerOr(s, "CloudFaceCount", o.maximumFaceCount),
      xyAxisQuads := BoolOr(s, "EnableCloudQuadXY", o.xyAxisQuads),
      xzAxisQuads := BoolOr(s, "EnableCloudQuadXZ", o.xzAxisQuads),
      yzAxisQuads := BoolOr(s, "EnableCloudQuadYZ", o.yzAxisQuads),
      twoSidedQuadsHybrid := BoolOr(s, "EnableCloudQuadTwoSided", o.twoSidedQuadsHybrid),
      cloudNormal :=
        if HasField(s, "CloudNormal") then CloudNormalForString(GetStringField(s, "CloudNormal"), o.cloudNormal) else o.cloudNormal,
      cloudNormalConformity := NumberOr(s, "CloudNormalConformity", o.cloudNormalConformity),
      hybridCloudPolyMaterialSuffix := o.hybridCloudPolyMaterialSuffix,
      flipbookFramesPerAxis := IntegerOr(s, "FlipbookFramesPerAxis", o.flipbookFramesPerAxis),
      hybridMeshFaceFactor :=
        if HasField(s, "CloudPolyFaceFactor") then GetNumberField(s, "CloudPolyFaceFactor") * 100.0 else o.hybridMeshFaceFactor,
      alphaCutOutEnabled := o.alphaCutOutEnabled,
      alphaCutOutSubdivideEnabled := o.alphaCutOutSubdivideEnabled,
      alphaCutOutResolution := o.alphaCutOutResolution,
      deterministic := BoolOr(s, "Deterministic", o.deterministic))
  }

  /** An empty "Settings" object changes nothing. */
  lemma ReadImposterizeOptionsEmpty(o: ImposterizeOptions)
    ensures ReadImposterizeOptions(map[], o) == o
  {
  }

  /** Reading the same object twice is reading it once. */
  lemma ReadImposterizeOptionsIdempotent(s: Object, o: ImposterizeOptions)
    ensures ReadImposterizeOptions(s, ReadImposterizeOptions(s, o)) == ReadImposterizeOptions(s, o)
  {
  }

  /** `GetImposterizeSettings`: every option of the tool mapped to the SDK,
    * with no custom geometry, the face factor as a fraction, the CPU bake
    * engine, the bake part's alpha mask threshold and bake output. */
  function ImposterizeSettingsFor(o: ImposterizeOptions, bakeOutput: API.BakeOutputSettings, alphaMaskThreshold: real): (r: API.ImposterizeSettings)
    ensures r.imposterType == ToSDKImposterType(o.imposterizeType) && !r.hasCustomGeometry
    ensures r.cloudPolyFaceFactor * 100.0 == o.hybridMeshFaceFactor
    ensures r.quadXYCount == API.UInt32(o.xyAxisQuadsBillboard) && r.quadXZCount == API.UInt32(o.xzAxisQuadsBillboard)
    ensures r.quadYZCount == API.UInt32(o.yzAxisQuadsBillboard) && r.cloudFaceCount == API.UInt32(o.maximumFaceCount)
    ensures r.cloudNormal == o.cloudNormal && r.cloudNormalConformity == o.cloudNormalConformity
    ensures r.bakeEngine == API.CPU && r.bakeOutput == bakeOutput && r.alphaMaskThreshold == alphaMaskThreshold
  {
    API.ImposterizeSettings(
      imposterType := ToSDKImposterType(o.imposterizeType),
      flipbookFramesPerAxis := API.UInt32(o.flipbookFramesPerAxis),
      hasCustomGeometry := false,
      aabbDisplacement := o.aabbDisplacement as real,
      quadXYCount := API.UInt32(o.xyAxisQuadsBillboard),
      quadXZCount := API.UInt32(o.xzAxisQuadsBillboard),
      quadYZCount := API.UInt32(o.yzAxisQuadsBillboard),
      enableQuadTwoSided := o.twoSidedQuadsBillboard,
      quadSubdivisionsU := API.UInt32(o.subdivisionsU),
      quadSubdivisionsV := API.UInt32(o.subdivisionsV),
      cloudFaceCount := API.UInt32(o.maximumFaceCount),
      cloudPolyFaceFactor := o.hybridMeshFaceFactor / 100.0,
      enableCloudQuadXY := o.xyAxisQuads,
      enableCloudQuadXZ := o.xzAxisQuads,
      enableCloudQuadYZ := o.yzAxisQuads,
      enableCloudQuadTwoSided := o.twoSidedQuadsHybrid,
      cloudNormal := o.cloudNormal,
      cloudNormalConformity := o.cloudNormalConformity,
      alphaMaskThreshold := alphaMaskThreshold,
      gutterSizeInPixels := API.UInt32(o.gutterSizeInPixels),
      alphaCutOut := o.alphaCutOutEnabled,
      alphaCutOutResolution := API.UInt32(o.alphaCutOutResolution),
      alphaCutOutSubdivide := o.alphaCutOutSubdivideEnabled,
      bakeEngine := API.CPU,
      bakeOutput := bakeOutput,
      deterministic := o.deterministic)
  }

  /** The face factor a profile gives (a fraction) is the fraction the SDK
    * receives: the reader's percentage and the mapping's division cancel. */
  lemma CloudPolyFaceFactorRoundTrip(s: Object, o: ImposterizeOptions, bakeOutput: API.BakeOutputSettings, alpha: real)
    requires "CloudPolyFaceFactor" in s
    ensures ImposterizeSettingsFor(ReadImposterizeOptions(s, o), bakeOutput, alpha).cloudPolyFaceFactor
      == GetNumberField(s, "CloudPolyFaceFactor")
  {
  }

  // ---------------------------------------------------------------------
  // Which settings can run

  datatype ImposterizeError = BaseError(reason: OperationError) | NoBillboardAxis | InvalidVistaSelection

  /** The vista check as written: refuses the selection when it has no
    * static mesh actor or no camera, and accepts any number of cameras
    * beyond one. */
  predicate VistaSelectionAcceptedAsWritten(actorCount: nat, cameraCount: nat) {
    !((actorCount < 1 && cameraCount != 1) || cameraCount == 0 || actorCount == 0)
  }

  /** The vista plane is built from exactly one camera and at least one
    * actor; this is what the plane construction itself checks. */
  predicate VistaSelectionAccepted(actorCount: nat, cameraCount: nat) {
    actorCount >= 1 && cameraCount == 1
  }

  /** The first clause of the written check is subsumed by the other two:
    * it accepts exactly the selections with an actor and a camera. */
  lemma VistaCheckAsWrittenMeaning(actorCount: nat, cameraCount: nat)
    ensures VistaSelectionAcceptedAsWritten(actorCount, cameraCount) <==> actorCount >= 1 && cameraCount >= 1
  {
  }

  /** One actor and two cameras pass the written check, and the plane
    * construction's one-camera check then fails. */
  lemma VistaCheckAcceptsTwoCameras()
    ensures VistaSelectionAcceptedAsWritten(1, 2)
    ensures !VistaSelectionAccepted(1, 2)
  {
  }

  /** The corrected check refuses every selection the written one refuses,
    * and accepts exactly the selections the plane construction can use. */
  lemma VistaCheckCorrected(actorCount: nat, cameraCount: nat)
    ensures VistaSelectionAccepted(actorCount, cameraCount) ==> VistaSelectionAcceptedAsWritten(actorCount, cameraCount)
    ensures VistaSelectionAccepted(actorCount, cameraCount) <==> actorCount > 0 && cameraCount == 1
    ensures VistaSelectionAcceptedAsWritten(actorCount, cameraCount) && cameraCount <= 1 ==> VistaSelectionAccepted(actorCount, cameraCount)
  {
  }

  /** Why the operation may not run, in the source's order: the base tool's
    * reason first, then a billboard without quads, a billboard cloud without
    * an axis, a vista imposter without its selection (with the corrected
    * vista check). */
  function ImposterizeFailure(o: ImposterizeOptions, baseFailure: Option<OperationError>, actorCount: nat, cameraCount: nat): (r: Option<ImposterizeError>)
    ensures baseFailure.Some? ==> r == Some(BaseError(baseFailure.value))
    ensures baseFailure.None? && o.imposterizeType == ImposterBillboard ==>
      (r.Some? <==> o.xyAxisQuadsBillboard == 0 && o.xzAxisQuadsBillboard == 0 && o.yzAxisQuadsBillboard == 0)
    ensures baseFailure.None? && o.imposterizeType == ImposterHybridBillboardCloud ==>
      (r.Some? <==> !o.xyAxisQuads && !o.xzAxisQuads && !o.yzAxisQuads)
    ensures baseFailure.None? && o.imposterizeType == ImposterVista ==>
      (r.Some? <==> !VistaSelectionAccepted(actorCount, cameraCount))
    ensures baseFailure.None? && (o.imposterizeType == ImposterAABB || o.imposterizeType == ImposterFlipbook) ==> r.None?
  {
    if baseFailure.Some? then Some(BaseError(baseFailure.value))
    else if o.imposterizeType == ImposterBillboard
      && o.xyAxisQuadsBillboard == 0 && o.xzAxisQuadsBillboard == 0 && o.yzAxisQuadsBillboard == 0 then Some(NoBillboardAxis)
    else if o.imposterizeType == ImposterHybridBillboardCloud
      && !o.xyAxisQuads && !o.xzAxisQuads && !o.yzAxisQuads then Some(NoBillboardAxis)
    else if o.imposterizeType == ImposterVista && !VistaSelectionAccepted(actorCount, cameraCount) then Some(InvalidVistaSelection)
    else None
  }

  /** The ids of the selected static mesh actors. */
  function StaticMeshActorIds(objects: seq<SelectedObject>): set<nat> {
    set k | 0 <= k < |objects| && objects[k].ActorObject? && objects[k].isStaticMeshActor :: objects[k].id
  }

  /** A sequence without repeats has as many elements as its set. */
  lemma {:induction false} DistinctCount(s: seq<nat>)
    requires NoDuplicates(s)
    ensures |Elements(s)| == |s|
  {
    if |s| > 0 {
      var p, last := s[..|s| - 1], s[|s| - 1];
      assert s == p + [last];
      DistinctCount(p);
      assert Elements(s) == Elements(p) + {last};
      assert last !in Elements(p);
    }
  }

  function Elements<T>(s: seq<T>): set<T> {
    set x | x in s
  }

  // ---------------------------------------------------------------------
  // Splitting a mesh into billboard and polygon parts

  datatype MeshFace = MeshFace(materialIndex: int, geometry: nat)

  /** A mesh handed to the tool, which `CanAppendMeshToInput` may rewrite. */
  class FaceMesh {
    var faces: seq<MeshFace>

    constructor(faces: seq<MeshFace>)
      ensures this.faces == faces
    {
      this.faces := faces;
    }
  }

  predicate MaterialsInRange(faces: seq<MeshFace>, materialCount: nat) {
    forall i :: 0 <= i < |faces| ==> 0 <= faces[i].materialIndex < materialCount
  }

  predicate UsesMaterial(faces: seq<MeshFace>, m: int) {
    exists i :: 0 <= i < |faces| && faces[i].materialIndex == m
  }

  /** The material indices of `faces` whose material name ends with the
    * suffix (`cloud`) or does not (`!cloud`), each once, in the order of
    * their first face: what the `AddUnique` loop collects. */
  function Sections(faces: seq<MeshFace>, names: seq<string>, suffix: string, cloud: bool): (r: seq<int>)
    requires MaterialsInRange(faces, |names|)
    ensures NoDuplicates(r)
    ensures forall m :: m in r <==> UsesMaterial(faces, m) && 0 <= m < |names| && EndsWith(names[m], suffix) == cloud
    decreases |faces|
  {
    if |faces| == 0 then []
    else
      var prefix := faces[..|faces| - 1];
      var prev := Sections(prefix, names, suffix, cloud);
      var m := faces[|faces| - 1].materialIndex;
      assert forall x :: UsesMaterial(faces, x) <==> UsesMaterial(prefix, x) || x == m by {
        forall x ensures UsesMaterial(faces, x) <==> UsesMaterial(prefix, x) || x == m {
          if UsesMaterial(prefix, x) {
            var i :| 0 <= i < |prefix| && prefix[i].materialIndex == x;
            assert faces[i].materialIndex == x;
          }
          if UsesMaterial(faces, x) && x != m {
            var i :| 0 <= i < |faces| && faces[i].materialIndex == x;
            assert prefix[i].materialIndex == x;
          }
          if x == m {
            assert faces[|faces| - 1].materialIndex == x;
          }
        }
      }
      if EndsWith(names[m], suffix) == cloud && m !in prev then prev + [m] else prev
  }

  /** The faces whose material is in `materials`, in mesh order
    * (`ExtractSubMesh` after the material indices were copied to the
    * sub-mesh indices). */
  function FacesWith(faces: seq<MeshFace>, materials: set<int>): (r: seq<MeshFace>)
    ensures forall k :: 0 <= k < |r| ==> r[k] in faces && r[k].materialIndex in materials
  {
    if |faces| == 0 then []
    else (if faces[0].materialIndex in materials then [faces[0]] else []) + FacesWith(faces[1..], materials)
  }

  /** The faces of each section in turn, as the extraction loop appends them. */
  function FacesOfSections(faces: seq<MeshFace>, sections: seq<int>): (r: seq<MeshFace>)
    ensures forall k :: 0 <= k < |r| ==> r[k] in faces && r[k].materialIndex in sections
  {
    if |sections| == 0 then []
    else FacesOfSections(faces, sections[..|sections| - 1]) + FacesWith(faces, {sections[|sections| - 1]})
  }

  lemma {:induction false} FacesWithUnion(faces: seq<MeshFace>, a: set<int>, b: set<int>)
    requires a !! b
    ensures multiset(FacesWith(faces, a + b)) == multiset(FacesWith(faces, a)) + multiset(FacesWith(faces, b))
  {
    if |faces| > 0 {
      FacesWithUnion(faces[1..], a, b);
    }
  }

  lemma {:induction false} FacesWithAll(faces: seq<MeshFace>, materials: set<int>)
    requires forall i :: 0 <= i < |faces| ==> faces[i].materialIndex in materials
    ensures FacesWith(faces, materials) == faces
  {
    if |faces| > 0 {
      FacesWithAll(faces[1..], materials);
    }
  }

  lemma {:induction false} FacesOfSectionsMultiset(faces: seq<MeshFace>, sections: seq<int>)
    requires NoDuplicates(sections)
    ensures multiset(FacesOfSections(faces, sections)) == multiset(FacesWith(faces, Elements(sections)))
  {
    if |sections| == 0 {
      FacesWithNone(faces);
    } else {
      var p := sections[..|sections| - 1];
      var last := sections[|sections| - 1];
      FacesOfSectionsMultiset(faces, p);
      assert sections == p + [last];
      assert Elements(sections) == Elements(p) + {last};
      assert last !in Elements(p);
      FacesWithUnion(faces, Elements(p), {last});
    }
  }

  lemma {:induction false} FacesWithNone(faces: seq<MeshFace>)
    ensures FacesWith(faces, {}) == []
  {
    if |faces| > 0 {
      FacesWithNone(faces[1..]);
    }
  }

  /** The split loses no face and invents none: the polygon part and the
    * billboard part together are the mesh's faces. */
  lemma SplitKeepsFaces(faces: seq<MeshFace>, names: seq<string>, suffix: string)
    requires MaterialsInRange(faces, |names|)
    ensures multiset(FacesOfSections(faces, Sections(faces, names, suffix, true))
                     + FacesOfSections(faces, Sections(faces, names, suffix, false))) == multiset(faces)
  {
    var cs := Sections(faces, names, suffix, true);
    var bs := Sections(faces, names, suffix, false);
    FacesOfSectionsMultiset(faces, cs);
    FacesOfSectionsMultiset(faces, bs);
    var cset := Elements(cs);
    var bset := Elements(bs);
    SectionsCover(faces, names, suffix);
    FacesWithUnion(faces, cset, bset);
    FacesWithAll(faces, cset + bset);
  }

  /** Every face's material is in exactly one of the two section lists. */
  lemma SectionsCover(faces: seq<MeshFace>, names: seq<string>, suffix: string)
    requires MaterialsInRange(faces, |names|)
    ensures var cs, bs := Sections(faces, names, suffix, true), Sections(faces, names, suffix, false);
      && Elements(cs) !! Elements(bs)
      && forall i :: 0 <= i < |faces| ==> faces[i].materialIndex in Elements(cs) + Elements(bs)
  {
    var cs, bs := Sections(faces, names, suffix, true), Sections(faces, names, suffix, false);
    forall i | 0 <= i < |faces| ensures faces[i].materialIndex in Elements(cs) + Elements(bs) {
      assert UsesMaterial(faces, faces[i].materialIndex);
    }
  }

  /** Every face of the polygon part has a material named with the suffix,
    * and no face of the billboard part has. */
  lemma SplitSeparatesByName(faces: seq<MeshFace>, names: seq<string>, suffix: string, cloud: bool)
    requires MaterialsInRange(faces, |names|)
    ensures var part := FacesOfSections(faces, Sections(faces, names, suffix, cloud));
      forall k :: 0 <= k < |part| ==> EndsWith(names[part[k].materialIndex], suffix) == cloud
  {
    var sections := Sections(faces, names, suffix, cloud);
    var part := FacesOfSections(faces, sections);
    forall k | 0 <= k < |part| ensures EndsWith(names[part[k].materialIndex], suffix) == cloud {
      assert part[k].materialIndex in sections;
    }
  }

  /** The `AddUnique` loop over the faces. */
  method CollectSections(faces: seq<MeshFace>, names: seq<string>, suffix: string)
    returns (cloudSections: seq<int>, billboardSections: seq<int>)
    requires MaterialsInRange(faces, |names|)
    ensures cloudSections == Sections(faces, names, suffix, true)
    ensures billboardSections == Sections(faces, names, suffix, false)
  {
    cloudSections, billboardSections := [], [];
    for i := 0 to |faces|
      invariant cloudSections == Sections(faces[..i], names, suffix, true)
      invariant billboardSections == Sections(faces[..i], names, suffix, false)
    {
      assert faces[..i + 1][..i] == faces[..i];
      var m := faces[i].materialIndex;
      if EndsWith(names[m], suffix) {
        if m !in cloudSections {
          cloudSections := cloudSections + [m];
        }
      } else {
        if m !in billboardSections {
          billboardSections := billboardSections + [m];
        }
      }
    }
    assert faces[..|faces|] == faces;
  }

  /** The extraction loop: each section's faces in turn. */
  method ExtractSections(faces: seq<MeshFace>, sections: seq<int>) returns (extracted: seq<MeshFace>)
    ensures extracted == FacesOfSections(faces, sections)
  {
    extracted := [];
    for k := 0 to |sections|
      invariant extracted == FacesOfSections(faces, sections[..k])
    {
      assert sections[..k + 1][..k] == sections[..k];
      extracted := extracted + FacesWith(faces, {sections[k]});
    }
    assert sections[..|sections|] == sections;
  }

  class ImposterizeTool {
    const bake: BakeBaseTool
    var options: ImposterizeOptions
    /** The polygonal part collected for a billboard cloud; `None` until the
      * first mesh with such faces is handed over. */
    var auxMesh: Option<seq<MeshFace>>

    /** The constructor: the options come from the saved configuration;
      * the bake part starts without super-sampling, with a masked blend mode,
      * an opacity mask map and the opacity page. */
    constructor(config: ImposterizeOptions)
      ensures fresh(bake) && fresh(bake.base) && bake.base.orderId == 3
      ensures options == config && auxMesh.None?
      ensures bake.options == DefaultBakeOptions.(superSampling := SuperSamplingNone, opacity := true)
      ensures bake.materialSettings == DefaultMaterialSettings.(blendMode := Masked, opacityMaskMap := true)
    {
      bake := new BakeBaseTool(3, false);
      options := config;
      auxMesh := None;
      new;
      bake.options := bake.options.(superSampling := SuperSamplingNone, opacity := true);
      bake.materialSettings := bake.materialSettings.(blendMode := Masked, opacityMaskMap := true);
    }

    /** `ResetSettings`: the tool's defaults, the bake tool's reset, then the
      * constructor's bake overrides again. */
    method ResetSettings()
      modifies this, bake, bake.base
      ensures options == ResetImposterizeOptions(old(options))
      ensures bake.options == DefaultBakeOptions.(reflectance := old(bake.options.reflectance), superSampling := SuperSamplingNone, opacity := true)
      ensures bake.materialSettings == DefaultMaterialSettings.(blendMode := Masked, opacityMaskMap := true)
      ensures bake.base.targetLODIndex == 0 && !bake.base.replaceSelectedMeshes
      ensures bake.base.meshComponents == old(bake.base.meshComponents)
      ensures auxMesh == old(auxMesh)
    {
      options := ResetImposterizeOptions(options);
      bake.ResetSettings();
      bake.options := bake.options.(superSampling := SuperSamplingNone, opacity := true);
      bake.materialSettings := bake.materialSettings.(blendMode := Masked, opacityMaskMap := true);
    }

    /** `GetImposterizeSettings` for the tool's current state. */
    function GetImposterizeSettings(): (r: API.ImposterizeSettings)
      reads this, bake
      ensures r == ImposterizeSettingsFor(options, bake.GetBakeOutputSettings(), bake.options.alphaMaskThreshold)
    {
      ImposterizeSettingsFor(options, bake.GetBakeOutputSettings(), bake.options.alphaMaskThreshold)
    }

    /** `ReadSettingsFromJSONObject`: an entry for "Imposterize" with a
      * "Settings" object is read over the options; then the bake reader is
      * handed the entry (the source hands it the "Settings" object, see
      * `BakeOptionsFromSettingsAsWritten`) and its answer is ignored.
      * Anything else is refused and changes nothing. */
    method ReadSettingsFromJSONObject(json: Option<Object>) returns (ok: bool)
      modifies this, bake
      ensures ok <==> IsValidJSONObject(json, "Imposterize") && TryGetObjectField(json.value, "Settings").Some?
      ensures ok ==> var s := TryGetObjectField(json.value, "Settings").value;
        && options == ReadImposterizeOptions(s, old(options))
        && bake.options == BakeOptionsFromEntry(json, old(bake.options))
      ensures !ok ==> options == old(options) && bake.options == old(bake.options)
      ensures bake.materialSettings == old(bake.materialSettings) && auxMesh == old(auxMesh)
    {
      if !IsValidJSONObject(json, "Imposterize") {
        return false;
      }
      var settings := TryGetObjectField(json.value, "Settings");
      if settings.None? {
        return false;
      }
      var s := settings.value;
      options := ReadImposterizeOptions(s, options);
      var _ := bake.ReadSettingsFromJSONObject(json);
      return true;
    }

    /** `CanAppendMeshToInput`: for a billboard cloud with a material suffix,
      * the faces whose material name ends with the suffix move to the
      * polygonal part, grouped by material; the mesh keeps the others,
      * grouped the same way. Every mesh is accepted. */
    method CanAppendMeshToInput(mesh: FaceMesh, materialNames: Option<seq<string>>) returns (accepted: bool)
      requires materialNames.Some? && options.imposterizeType == ImposterHybridBillboardCloud && |options.hybridCloudPolyMaterialSuffix| > 0
        ==> MaterialsInRange(mesh.faces, |materialNames.value|)
      modifies this, mesh
      ensures accepted
      ensures options == old(options)
      ensures var untouched := materialNames.None? || options.imposterizeType != ImposterHybridBillboardCloud
          || |options.hybridCloudPolyMaterialSuffix| == 0
          || |Sections(old(mesh.faces), materialNames.value, options.hybridCloudPolyMaterialSuffix, true)| == 0;
        && (untouched ==> mesh.faces == old(mesh.faces) && auxMesh == old(auxMesh))
        && (!untouched ==>
          var names, suffix := materialNames.value, options.hybridCloudPolyMaterialSuffix;
          && auxMesh == Some((if old(auxMesh).Some? then old(auxMesh).value else [])
                             + FacesOfSections(old(mesh.faces), Sections(old(mesh.faces), names, suffix, true)))
          && mesh.faces == FacesOfSections(old(mesh.faces), Sections(old(mesh.faces), names, suffix, false)))
    {
      if materialNames.None? {
        return true;
      }
      if options.imposterizeType != ImposterHybridBillboardCloud {
        return true;
      }
      var suffix := options.hybridCloudPolyMaterialSuffix;
      if |suffix| == 0 {
        return true;
      }
      var names := materialNames.value;
      var faces := mesh.faces;
      var cloudSections, billboardSections := CollectSections(faces, names, suffix);
      if |cloudSections| > 0 {
        var aux := if auxMesh.Some? then auxMesh.value else [];
        var cloudFaces := ExtractSections(faces, cloudSections);
        auxMesh := Some(aux + cloudFaces);
        var billboardFaces := ExtractSections(faces, billboardSections);
        mesh.faces := billboardFaces;
      }
      return true;
    }

    /** `IsMeshOperationExecutable`: refused without a window; otherwise the
      * base tool's checks, then the checks of the imposter type. The vista
      * check counts the selected static mesh actors and the included
      * cameras of the window. */
    method IsMeshOperationExecutable(errorTextRequested: bool, dialogYes: bool)
      returns (ok: bool, errorText: Option<ImposterizeError>)
      requires bake.base.Valid()
      ensures bake.base.window == null ==> !ok && errorText.None?
      ensures bake.base.window != null ==>
        var b := bake.base;
        var failure := ImposterizeFailure(options,
          OperationFailure(b.meshComponents, b.freezesTransformsForMultiSelection, b.resultUsage, errorTextRequested, dialogYes),
          |StaticMeshActorIds(b.window.selectedObjects)|,
          |Filter(b.window.selectedComponents, IncludedCamera)|);
        && (ok <==> failure.None?)
        && errorText == (if errorTextRequested then failure else None)
    {
      var w := bake.base.window;
      if w == null {
        return false, None;
      }
      var baseOk, baseError, _ := bake.base.IsMeshOperationExecutable(errorTextRequested, dialogYes);
      if !baseOk {
        return false, if errorTextRequested then Some(BaseError(baseError.value)) else None;
      }
      var o := options;
      if o.imposterizeType == ImposterBillboard {
        if o.xyAxisQuadsBillboard == 0 && o.xzAxisQuadsBillboard == 0 && o.yzAxisQuadsBillboard == 0 {
          return false, if errorTextRequested then Some(NoBillboardAxis) else None;
        }
      }
      if o.imposterizeType == ImposterHybridBillboardCloud {
        if !o.xyAxisQuads && !o.xzAxisQuads && !o.yzAxisQuads {
          return false, if errorTextRequested then Some(NoBillboardAxis) else None;
        }
      }
      if o.imposterizeType == ImposterVista {
        var actors := w.GetSelectedStaticMeshActors();
        var cameras := w.GetEnabledSelectedCameraComponents();
        assert Elements(actors) == StaticMeshActorIds(w.selectedObjects) by {
          forall a ensures a in actors <==> a in StaticMeshActorIds(w.selectedObjects) {
            if a in StaticMeshActorIds(w.selectedObjects) {
              var k :| 0 <= k < |w.selectedObjects| && w.selectedObjects[k].ActorObject?
                && w.selectedObjects[k].isStaticMeshActor && w.selectedObjects[k].id == a;
              assert w.selectedObjects[k] == ActorObject(a, true);
            }
            if a in actors {
              var k :| 0 <= k < |w.selectedObjects| && w.selectedObjects[k] == ActorObject(a, true);
            }
          }
        }
        DistinctCount(actors);
        if |actors| == 0 || |cameras| != 1 {
          return false, if errorTextRequested then Some(InvalidVistaSelection) else None;
        }
      }
      return true, None;
    }
  }
}
