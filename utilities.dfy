/** `UInstaLODUtilities`: the helpers the tools share for turning results
  * into engine assets. Modelled here are:
  * - the flattened-material parameter lookup and the packing of Metallic,
  *   Roughness and Specular into one texture;
  * - the save-path helpers;
  * - the plane mesh built for imposters;
  * - the LOD insertion and removal rules for static and skeletal meshes;
  * - the hand-over of a script result.
  *
  * Engine objects whose fields these helpers update in place (a static mesh's
  * source models, a skeletal mesh's LOD models and LOD infos, a set of path
  * names, an output array) are classes; a null engine pointer is a null
  * reference.
  */
module InstaLODUtilities {
  import opened Wrappers
  import opened UEString
  import API = InstaLODAPI
  import Base = InstaLODBaseTool
  import opened UEColor

  // ---------------------------------------------------------------------
  // Flattened material parameters

  /** `EFlattenMaterialProperties`, in declaration order. */
  datatype FlattenProperty =
    | Diffuse | Metallic | Specular | Roughness | Anisotropy | Normal | Tangent
    | Opacity | Emissive | SubSurface | OpacityMask | AmbientOcclusion

  datatype MaterialParameterType = ParameterNone | Scalar | Vector

  /** The name of a flattened property, as the engine's enumeration spells it. */
  function PropertyName(p: FlattenProperty): string {
    match p
    case Diffuse => "Diffuse"
    case Metallic => "Metallic"
    case Specular => "Specular"
    case Roughness => "Roughness"
    case Anisotropy => "Anisotropy"
    case Normal => "Normal"
    case Tangent => "Tangent"
    case Opacity => "Opacity"
    case Emissive => "Emissive"
    case SubSurface => "SubSurface"
    case OpacityMask => "OpacityMask"
    case AmbientOcclusion => "AmbientOcclusion"
  }

  /** `GetPotentialParamNames`: the material parameter names a property may
    * be bound to, in the order they are tried. Anisotropy, Tangent and
    * SubSurface have none; every other property is tried last under its own
    * name, and Diffuse and Emissive first under the name of the material
    * input they feed. */
  function GetPotentialParamNames(p: FlattenProperty): (names: seq<string>)
    ensures |names| <= 2
    ensures names == [] <==> p == Anisotropy || p == Tangent || p == SubSurface
    ensures names != [] ==> names[|names| - 1] == PropertyName(p)
    ensures |names| == 2 <==> p == Diffuse || p == Emissive
    ensures p == Diffuse ==> names[0] == "BaseColor"
    ensures p == Emissive ==> names[0] == "EmissiveColor"
  {
    match p
    case Diffuse => ["BaseColor", "Diffuse"]
    case Normal => ["Normal"]
    case Metallic => ["Metallic"]
    case Roughness => ["Roughness"]
    case Specular => ["Specular"]
    case Opacity => ["Opacity"]
    case OpacityMask => ["OpacityMask"]
    case AmbientOcclusion => ["AmbientOcclusion"]
    case Emissive => ["EmissiveColor", "Emissive"]
    case _ => []
  }

  /** `GetConstantParamType`: the kind of constant parameter a property that
    * was flattened to a single value is written to. */
  function GetConstantParamType(p: FlattenProperty): (t: MaterialParameterType)
    ensures t == Vector <==> p == Diffuse || p == Emissive
    ensures t == ParameterNone <==> GetPotentialParamNames(p) == [] || p == Normal
  {
    match p
    case Metallic | Roughness | Specular | Opacity | OpacityMask | AmbientOcclusion => Scalar
    case Diffuse | Emissive => Vector
    case _ => ParameterNone
  }

  /** A parameter name identifies its property: no name is offered for two
    * properties, and a property written as a vector constant offers two
    * names, one as a scalar exactly one. */
  lemma ParamNamesIdentifyProperty(p: FlattenProperty, q: FlattenProperty, name: string)
    requires name in GetPotentialParamNames(p) && name in GetPotentialParamNames(q)
    ensures p == q
    ensures GetConstantParamType(p) == Vector ==> |GetPotentialParamNames(p)| == 2
    ensures GetConstantParamType(p) == Scalar ==> GetPotentialParamNames(p) == [name]
  {
    var np := GetPotentialParamNames(p);
    var nq := GetPotentialParamNames(q);
    assert |np| > 0 && |nq| > 0;
    assert name[0] in {'B', 'D', 'N', 'M', 'R', 'S', 'O', 'A', 'E'};
    assert |name| >= 6;
  }

  // ---------------------------------------------------------------------
  // Packed Metallic / Roughness / Specular texture

  /** One flattened property: whether it was baked at all, whether it was
    * flattened to a single constant, its texture size and its samples. */
  datatype PropertyData = PropertyData(
    containsData: bool,
    isConstant: bool,
    size: (int, int),
    samples: seq<Texel>)

  /** The three properties of an `FFlattenMaterial` that may share a
    * texture. */
  datatype FlattenMaterial = FlattenMaterial(
    metallic: PropertyData,
    roughness: PropertyData,
    specular: PropertyData)

  /** The three properties in the order the packing walks them. */
  function PackedProperty(m: FlattenMaterial, k: nat): PropertyData
    requires k < 3
  {
    if k == 0 then m.metallic else if k == 1 then m.roughness else m.specular
  }

  /** A property is baked down when it holds data that is not a constant. */
  predicate IsBaked(d: PropertyData) {
    d.containsData && !d.isConstant
  }

  /** What `CalculatePackedTextureData` hands back through its reference
    * parameters, and its result. `size` is `None` when `OutSize` is left
    * untouched. */
  datatype PackedTextureData = PackedTextureData(
    packMetallic: bool,
    packRoughness: bool,
    packSpecular: bool,
    numSamples: int,
    size: Option<(int, int)>,
    packTextures: bool)

  function PackFlag(r: PackedTextureData, k: nat): bool
    requires k < 3
  {
    if k == 0 then r.packMetallic else if k == 1 then r.packRoughness else r.packSpecular
  }

  function CountTrue(a: bool, b: bool, c: bool): (n: nat)
    ensures n <= 3
  {
    (if a then 1 else 0) + (if b then 1 else 0) + (if c then 1 else 0)
  }

  /** `CalculatePackedTextureData`: the sample count comes from Metallic when
    * its size matches Roughness or Specular, else from Roughness when
    * Roughness and Specular match, else it keeps the caller's value
    * `numSamplesIn`; a baked property is packed when it has exactly that
    * many samples; packing needs at least two of them. */
  function CalculatePackedTextureData(m: FlattenMaterial, numSamplesIn: int): (r: PackedTextureData)
    ensures m.metallic.size == m.roughness.size || m.metallic.size == m.specular.size
            ==> r.numSamples == |m.metallic.samples| && r.size == Some(m.metallic.size)
    ensures m.metallic.size != m.roughness.size && m.metallic.size != m.specular.size
            && m.roughness.size == m.specular.size
            ==> r.numSamples == |m.roughness.samples| && r.size == Some(m.roughness.size)
    ensures r.size.None? ==> r.numSamples == numSamplesIn
    ensures forall k :: 0 <= k < 3 ==>
              (PackFlag(r, k) <==> (r.numSamples != 0 && IsBaked(PackedProperty(m, k))
                                    && |PackedProperty(m, k).samples| == r.numSamples))
    ensures r.packTextures <==> CountTrue(r.packMetallic, r.packRoughness, r.packSpecular) >= 2
  {
    var (n, size) :=
      if m.metallic.size == m.roughness.size || m.metallic.size == m.specular.size then
        (|m.metallic.samples|, Some(m.metallic.size))
      else if m.roughness.size == m.specular.size then
        (|m.roughness.samples|, Some(m.roughness.size))
      else
        (numSamplesIn, None);
    if n != 0 then
      var pm := IsBaked(m.metallic) && n == |m.metallic.samples|;
      var pr := IsBaked(m.roughness) && n == |m.roughness.samples|;
      var ps := IsBaked(m.specular) && n == |m.specular.samples|;
      PackedTextureData(pm, pr, ps, n, size, CountTrue(pm, pr, ps) >= 2)
    else
      PackedTextureData(false, false, false, n, size, false)
  }

  /** When packing is chosen, at least two properties are packed, and every
    * packed property has exactly the shared sample count (so the merge
    * reads no sample past its end). A material whose three properties are
    * baked with one size and one sample count packs all three. */
  lemma {:induction false} PackedPropertiesShareSampleCount(m: FlattenMaterial, n: int)
    ensures var r := CalculatePackedTextureData(m, n);
      r.packTextures ==> r.numSamples > 0 && exists j, k :: 0 <= j < k < 3 && PackFlag(r, j) && PackFlag(r, k)
    ensures var r := CalculatePackedTextureData(m, n);
      IsBaked(m.metallic) && IsBaked(m.roughness) && IsBaked(m.specular)
      && m.metallic.size == m.roughness.size == m.specular.size
      && |m.metallic.samples| == |m.roughness.samples| == |m.specular.samples| > 0
      ==> r.packTextures && r.packMetallic && r.packRoughness && r.packSpecular
  {
    var r := CalculatePackedTextureData(m, n);
    if r.packTextures {
      assert r.numSamples != 0;
      assert |PackedProperty(m, 0).samples| >= 0;
      if r.packMetallic && r.packRoughness {
        assert PackFlag(r, 0) && PackFlag(r, 1);
      } else if r.packMetallic {
        assert PackFlag(r, 0) && PackFlag(r, 2);
      } else {
        assert PackFlag(r, 1) && PackFlag(r, 2);
      }
    }
    if IsBaked(m.metallic) && IsBaked(m.roughness) && IsBaked(m.specular)
       && m.metallic.size == m.roughness.size == m.specular.size
       && |m.metallic.samples| == |m.roughness.samples| == |m.specular.samples| > 0 {
      assert PackFlag(r, 0) && PackFlag(r, 1) && PackFlag(r, 2);
    }
  }

  /** Whether the merge writes property `k`: packed, and still baked. */
  predicate MergesProperty(m: FlattenMaterial, r: PackedTextureData, k: nat)
    requires k < 3
  {
    PackFlag(r, k) && IsBaked(PackedProperty(m, k))
  }

  /** Every merged property has a sample `i`. */
  predicate HasMergedSample(m: FlattenMaterial, r: PackedTextureData, i: nat) {
    forall j :: 0 <= j < 3 && MergesProperty(m, r, j) ==> i < |PackedProperty(m, j).samples|
  }

  /** What property `k` ORs into texel `i`: nothing when it is not merged. */
  function Contribution(m: FlattenMaterial, r: PackedTextureData, k: nat, i: nat): Texel
    requires k < 3 && HasMergedSample(m, r, i)
  {
    if MergesProperty(m, r, k) then PackedContribution(PackedProperty(m, k).samples[i], k) else 0
  }

  /** The texel `i` after the merge has walked properties `0 .. k-1`. */
  function MergedUpTo(m: FlattenMaterial, r: PackedTextureData, k: nat, i: nat): Texel
    requires k <= 3 && HasMergedSample(m, r, i)
  {
    if k == 0 then 0 else MergedUpTo(m, r, k - 1, i) | Contribution(m, r, k - 1, i)
  }

  /** The sample of property `k` the merge reads for texel `i`, 0 when the
    * property is not merged. */
  function MergedSample(m: FlattenMaterial, r: PackedTextureData, k: nat, i: nat): Texel
    requires k < 3 && HasMergedSample(m, r, i)
  {
    if MergesProperty(m, r, k) then PackedProperty(m, k).samples[i] else 0
  }

  lemma MergedUpToIsPackedTexel(m: FlattenMaterial, r: PackedTextureData, i: nat)
    requires HasMergedSample(m, r, i)
    ensures MergedUpTo(m, r, 3, i)
            == PackedTexel(MergedSample(m, r, 0, i), MergedSample(m, r, 1, i), MergedSample(m, r, 2, i),
                           MergesProperty(m, r, 0), MergesProperty(m, r, 1), MergesProperty(m, r, 2))
  {
    assert MergedUpTo(m, r, 1, i) == 0 | Contribution(m, r, 0, i);
    assert MergedUpTo(m, r, 2, i) == MergedUpTo(m, r, 1, i) | Contribution(m, r, 1, i);
  }

  /** The merged texel as a whole: alpha is 0xFF when any property was
    * merged (0 otherwise), and red, green and blue are the red bytes of the
    * merged Metallic, Roughness and Specular samples, 0 for one not
    * merged. */
  lemma MergedTexelChannels(m: FlattenMaterial, r: PackedTextureData, i: nat)
    requires HasMergedSample(m, r, i)
    ensures var t := MergedUpTo(m, r, 3, i);
      && Channel(t, 3) == (if MergesProperty(m, r, 0) || MergesProperty(m, r, 1) || MergesProperty(m, r, 2) then 0xFF else 0)
      && Channel(t, 2) == (if MergesProperty(m, r, 0) then Channel(m.metallic.samples[i], 2) else 0)
      && Channel(t, 1) == (if MergesProperty(m, r, 1) then Channel(m.roughness.samples[i], 2) else 0)
      && Channel(t, 0) == (if MergesProperty(m, r, 2) then Channel(m.specular.samples[i], 2) else 0)
  {
    MergedUpToIsPackedTexel(m, r, i);
    PackedTexelBytes(MergedSample(m, r, 0, i), MergedSample(m, r, 1, i), MergedSample(m, r, 2, i),
                     MergesProperty(m, r, 0), MergesProperty(m, r, 1), MergesProperty(m, r, 2));
  }

  /** The merge of the packed properties into one texture (the block after
    * `if (bPackTextures)` in `CreateFlattenMaterialInstance`): a zeroed
    * buffer of `numSamples` texels into which each merged property ORs its
    * contribution, property by property. */
  method MergePackedTexture(m: FlattenMaterial, r: PackedTextureData) returns (merged: array<Texel>)
    requires r == CalculatePackedTextureData(m, 0) && r.packTextures
    ensures fresh(merged) && merged.Length == r.numSamples
    ensures forall i :: 0 <= i < merged.Length ==> merged[i] == MergedUpTo(m, r, 3, i)
  {
    PackedPropertiesShareSampleCount(m, 0);
    merged := new Texel[r.numSamples](_ => 0);
    var k := 0;
    while k < 3
      invariant 0 <= k <= 3
      invariant forall i :: 0 <= i < merged.Length ==> merged[i] == MergedUpTo(m, r, k, i)
    {
      if MergesProperty(m, r, k) {
        MergePackedProperty(m, r, k, merged);
      }
      k := k + 1;
    }
  }

  /** One property's pass of the merge: its contribution ORed into every
    * texel. */
  method MergePackedProperty(m: FlattenMaterial, r: PackedTextureData, k: nat, merged: array<Texel>)
    requires k < 3 && MergesProperty(m, r, k)
    requires forall i :: 0 <= i < merged.Length ==> HasMergedSample(m, r, i)
    requires forall i :: 0 <= i < merged.Length ==> merged[i] == MergedUpTo(m, r, k, i)
    modifies merged
    ensures forall i :: 0 <= i < merged.Length ==> merged[i] == MergedUpTo(m, r, k + 1, i)
  {
    var samples := PackedProperty(m, k).samples;
    var i := 0;
    while i < merged.Length
      invariant 0 <= i <= merged.Length
      invariant forall j :: 0 <= j < i ==> merged[j] == MergedUpTo(m, r, k + 1, j)
      invariant forall j :: i <= j < merged.Length ==> merged[j] == MergedUpTo(m, r, k, j)
    {
      assert HasMergedSample(m, r, i);
      merged[i] := merged[i] | PackedContribution(samples[i], k);
      i := i + 1;
    }
  }

  // ---------------------------------------------------------------------
  // Save paths

  /** `GetInvalidCharactersForSavePath`. */
  const InvalidSavePathCharacters: string := " .,\"'$%&()[]{}<>=*`~#:;|@?\\^"

  /** `DoesSavePathContainIllegalCharacters` as written: each character is
    * handed to `FString::Contains` by address, which reads it as a string
    * running on until the next NUL in memory. `following[i]` is what lies
    * behind character `i` before that NUL. */
  predicate ContainsIllegalCharactersAsWritten(path: string, following: seq<string>)
    requires |following| == |path|
  {
    exists i :: 0 <= i < |path| && Occurs(InvalidSavePathCharacters, [path[i]] + following[i])
  }

  /** A path made of a single space is not recognised when the stack holds
    * 29 non-NUL characters behind it: the string searched for is longer
    * than the whole list. */
  lemma IllegalCharacterMissedAsWritten()
    ensures ' ' in InvalidSavePathCharacters
    ensures !ContainsIllegalCharactersAsWritten(" ", [seq(29, _ => 'x')])
  {
    assert InvalidSavePathCharacters[0] == ' ';
    var needle := [' '] + seq(29, _ => 'x');
    forall i: nat | i <= |InvalidSavePathCharacters|
      ensures !OccursAt(InvalidSavePathCharacters, needle, i)
    {
    }
  }

  /** `DoesSavePathContainIllegalCharacters` as intended: true exactly when
    * some character of the path is in the invalid list. */
  method DoesSavePathContainIllegalCharacters(path: string) returns (r: bool)
    ensures r <==> exists i :: 0 <= i < |path| && path[i] in InvalidSavePathCharacters
  {
    for i := 0 to |path|
      invariant forall j :: 0 <= j < i ==> path[j] !in InvalidSavePathCharacters
    {
      if path[i] in InvalidSavePathCharacters {
        return true;
      }
    }
    return false;
  }

  /** `GetValidSavePath`, applied to the path after the engine's
    * `NormalizeFilename` and `NormalizeDirectoryName`: one leading "/" is
    * dropped, then one leading "Game/" (ignoring case). */
  function GetValidSavePath(normalized: string): (r: string)
    ensures |normalized| - |r| in {0, 1, 5, 6}
    ensures r == normalized[|normalized| - |r|..]
    ensures !StartsWith(normalized, "/") && !StartsWith(normalized, "Game/") ==> r == normalized
  {
    var s := if StartsWith(normalized, "/") then normalized[1..] else normalized;
    if StartsWith(s, "Game/") then s[5..] else s
  }

  /** A content path "/Game/<p>", "Game/<p>" or "/<p>" becomes "<p>", and a
    * path already relative to the content folder is kept. */
  lemma ValidSavePathOfContentPath(p: string)
    requires !StartsWith(p, "/") && !StartsWith(p, "Game/")
    ensures GetValidSavePath("/Game/" + p) == p
    ensures GetValidSavePath("Game/" + p) == p
    ensures GetValidSavePath("/" + p) == p
    ensures GetValidSavePath(p) == p
  {
    var g := "Game/" + p;
    assert g[..1] == "G" && ToLower(g[..1])[0] == 'g';
    assert !StartsWith(g, "/");
    assert g[..5] == "Game/";
    assert StartsWith(g, "Game/") && g[5..] == p;
    assert ("/Game/" + p)[..1] == "/";
    assert StartsWith("/Game/" + p, "/") && ("/Game/" + p)[1..] == g;
    assert ("/" + p)[..1] == "/";
    assert StartsWith("/" + p, "/") && ("/" + p)[1..] == p;
  }

  /** The path `EnsureSavePathIsUniqueForEntry` starts from: the save path,
    * extended by the default name (or the entry's name when there is no
    * default) when the save path is an existing folder of the project's
    * content directory. */
  function InitialSavePath(savePath: string, entryName: string, defaultName: string, directoryExists: bool): string {
    if !directoryExists then savePath
    else if defaultName == "" then savePath + "/" + entryName
    else savePath + "/" + defaultName
  }

  /** The `k`-th numbered alternative to `initial`: a trailing "0" is dropped
    * once (what removing the suffix "0" of the first round does), then the
    * number is appended. */
  function UniqueCandidate(initial: string, k: nat): string {
    RemoveFromEnd(initial, FromInt(0)) + FromInt(k)
  }

  lemma {:induction false} ToLowerOfDigits(s: string)
    requires forall i :: 0 <= i < |s| ==> '0' <= s[i] <= '9'
    ensures ToLower(s) == s
  {
  }

  /** Numbered alternatives with different numbers differ even ignoring
    * case, so the set lookup sees each as a new path. */
  lemma CandidatesDistinct(initial: string, j: nat, k: nat)
    requires j != k
    ensures ToLower(UniqueCandidate(initial, j)) != ToLower(UniqueCandidate(initial, k))
  {
    var b := RemoveFromEnd(initial, FromInt(0));
    ToLowerAppend(b, FromInt(j));
    ToLowerAppend(b, FromInt(k));
    ToLowerOfDigits(FromInt(j));
    ToLowerOfDigits(FromInt(k));
    if ToLower(UniqueCandidate(initial, j)) == ToLower(UniqueCandidate(initial, k)) {
      var lb := ToLower(b);
      assert (lb + FromInt(j))[|lb|..] == FromInt(j);
      assert (lb + FromInt(k))[|lb|..] == FromInt(k);
      DigitsValueFromInt(j);
      DigitsValueFromInt(k);
    }
  }

  /** Dropping the number of an alternative gives back its stem. */
  lemma DropCandidateNumber(initial: string, k: nat)
    ensures RemoveFromEnd(UniqueCandidate(initial, k), FromInt(k)) == RemoveFromEnd(initial, FromInt(0))
  {
    var c := UniqueCandidate(initial, k);
    var b := RemoveFromEnd(initial, FromInt(0));
    assert c[|c| - |FromInt(k)|..] == FromInt(k);
    assert EndsWith(c, FromInt(k));
    assert c[..|c| - |FromInt(k)|] == b;
  }

  /** A `TSet<FString>` of path names, filled by the caller across entries. */
  class PathNameSet {
    var names: set<string>

    constructor(initial: set<string>)
      ensures names == initial
    {
      names := initial;
    }
  }

  /** `EnsureSavePathIsUniqueForEntry`: while the set holds the path
    * (ignoring case), the number of the previous round is removed from its
    * end and the next number appended; the path found is added to the set.
    * Whether the folder exists is a parameter. */
  method EnsureSavePathIsUniqueForEntry(savePath: string, entryName: string, pathNames: PathNameSet,
                                        defaultName: string, directoryExists: bool)
    returns (path: string)
    modifies pathNames
    ensures var initial := InitialSavePath(savePath, entryName, defaultName, directoryExists);
      && !ContainsIgnoreCase(old(pathNames.names), path)
      && (!ContainsIgnoreCase(old(pathNames.names), initial) ==> path == initial)
      && (ContainsIgnoreCase(old(pathNames.names), initial) ==>
            exists k :: k >= 1 && path == UniqueCandidate(initial, k)
              && forall j :: 1 <= j < k ==> ContainsIgnoreCase(old(pathNames.names), UniqueCandidate(initial, j)))
    ensures pathNames.names == old(pathNames.names) + {path}
  {
    var initial := InitialSavePath(savePath, entryName, defaultName, directoryExists);
    path := initial;
    var names := pathNames.names;
    if |names| > 0 {
      var suffix: nat := 1;
      ghost var remaining := names;
      ghost var triedKeys: set<string> := {};
      while ContainsIgnoreCase(names, path)
        invariant suffix >= 1
        invariant suffix == 1 ==> path == initial
        invariant suffix > 1 ==> path == UniqueCandidate(initial, suffix - 1) && ContainsIgnoreCase(names, initial)
        invariant forall j :: 1 <= j < suffix - 1 ==> ContainsIgnoreCase(names, UniqueCandidate(initial, j))
        invariant remaining <= names
        invariant forall q :: q in names && q !in remaining ==> ToLower(q) in triedKeys
        invariant forall t :: t in triedKeys ==>
                    exists j :: 1 <= j < suffix - 1 && t == ToLower(UniqueCandidate(initial, j))
        decreases |remaining|, if suffix == 1 then 1 else 0
      {
        if suffix > 1 {
          remaining, triedKeys := ForgetTriedCandidate(initial, suffix, names, remaining, triedKeys);
          DropCandidateNumber(initial, suffix - 1);
        }
        ghost var previous := path;
        path := RemoveFromEnd(path, FromInt(suffix - 1)) + FromInt(suffix);
        suffix := suffix + 1;
        forall j | 1 <= j < suffix - 1
          ensures ContainsIgnoreCase(names, UniqueCandidate(initial, j))
        {
          if j == suffix - 2 {
            assert UniqueCandidate(initial, j) == previous;
          }
        }
      }
    }
    pathNames.names := names + {path};
  }

  /** One round of the loop of `EnsureSavePathIsUniqueForEntry` that finds
    * its candidate taken: the names matching the candidate leave
    * `remaining`, which shrinks, since no earlier candidate matched them. */
  lemma ForgetTriedCandidate(initial: string, suffix: nat, names: set<string>,
                             remaining: set<string>, tried: set<string>)
    returns (rest: set<string>, tried': set<string>)
    requires suffix > 1 && ContainsIgnoreCase(names, UniqueCandidate(initial, suffix - 1))
    requires remaining <= names
    requires forall q :: q in names && q !in remaining ==> ToLower(q) in tried
    requires forall t :: t in tried ==>
               exists j :: 1 <= j < suffix - 1 && t == ToLower(UniqueCandidate(initial, j))
    ensures rest <= names && |rest| < |remaining|
    ensures forall q :: q in names && q !in rest ==> ToLower(q) in tried'
    ensures forall t :: t in tried' ==>
              exists j :: 1 <= j < suffix && t == ToLower(UniqueCandidate(initial, j))
  {
    var path := UniqueCandidate(initial, suffix - 1);
    var key := ToLower(path);
    var n :| n in names && EqualsIgnoreCase(n, path);
    if key in tried {
      var j :| 1 <= j < suffix - 1 && key == ToLower(UniqueCandidate(initial, j));
      CandidatesDistinct(initial, j, suffix - 1);
    }
    rest := set q | q in remaining && ToLower(q) != key;
    assert rest <= remaining - {n};
    SubsetCardinality(rest, remaining - {n});
    tried' := tried + {key};
  }

  lemma {:induction false} SubsetCardinality<T>(a: set<T>, b: set<T>)
    requires a <= b
    ensures |a| <= |b|
  {
    if a != {} {
      var x :| x in a;
      SubsetCardinality(a - {x}, b - {x});
    }
  }

  // ---------------------------------------------------------------------
  // The plane mesh

  /** `SMALL_NUMBER`, the tolerance of `FMath::IsNearlyZero`. */
  const SmallNumber: real := 1.0 / 100000000.0

  predicate IsNearlyZero(x: real) {
    -SmallNumber <= x <= SmallNumber
  }

  /** The precondition `CreatePlane` checks as written: the first extent,
    * twice. */
  predicate PlaneExtentsCheckedAsWritten(extents: API.Vec2) {
    !IsNearlyZero(extents.x) && !IsNearlyZero(extents.x)
  }

  /** A plane of zero height passes the check as written, and the aspect
    * ratio `CreatePlane` computes next divides by that height. */
  lemma PlaneCheckAdmitsZeroHeight()
    ensures PlaneExtentsCheckedAsWritten(API.Vec2(1.0, 0.0))
    ensures !PlaneExtentsChecked(API.Vec2(1.0, 0.0))
  {
  }

  /** The intended check: neither extent is nearly zero. */
  predicate PlaneExtentsChecked(extents: API.Vec2) {
    !IsNearlyZero(extents.x) && !IsNearlyZero(extents.y)
  }

  /** A plane that passes the intended check has a height to divide by, and
    * a non-zero aspect ratio. */
  lemma PlaneCheckedExtentsGiveRatio(extents: API.Vec2)
    requires PlaneExtentsChecked(extents)
    ensures extents.y != 0.0 && extents.x / extents.y != 0.0
  {
  }

  /** The texture-coordinate extents of the plane: the longer side spans the
    * whole unit range and the shorter one the aspect ratio of it. */
  function PlaneTexCoordDimensions(extents: API.Vec2): (d: (real, real))
    requires extents.y != 0.0
    ensures var ratio := extents.x / extents.y;
      ratio > 0.0 ==> 0.0 < d.0 <= 1.0 && 0.0 < d.1 <= 1.0 && (d.0 == 1.0 || d.1 == 1.0) && d.0 == ratio * d.1
  {
    var ratio := extents.x / extents.y;
    if ratio > 1.0 then (1.0, 1.0 / ratio)
    else if ratio < 1.0 then (ratio, 1.0)
    else (1.0, 1.0)
  }

  const PlaneUp := API.Vec3(0.0, 0.0, 1.0)

  /** `CreatePlane`: a quad of four corners at +-extents in the z = 0 plane,
    * split into the triangles (0, 1, 2) and (2, 1, 3), facing up, in
    * material, submesh and smoothing group 0. The tangent frame comes from
    * the SDK's MikkTSpace pass and is a parameter. */
  method CreatePlane(extents: API.Vec2, tangents: seq<API.Vec3>, binormals: seq<API.Vec3>)
    returns (mesh: API.Mesh)
    requires PlaneExtentsChecked(extents)
    requires |tangents| == 6 && |binormals| == 6
    ensures API.MeshIsValid(mesh)
    ensures mesh.vertexPositions == [
      API.Vec3(-extents.x, extents.y, 0.0), API.Vec3(extents.x, extents.y, 0.0),
      API.Vec3(-extents.x, -extents.y, 0.0), API.Vec3(extents.x, -extents.y, 0.0)]
    ensures mesh.wedgeIndices == [0, 1, 2, 2, 1, 3]
    ensures |mesh.wedgeNormals| == 6 && forall k :: 0 <= k < 6 ==> mesh.wedgeNormals[k] == PlaneUp
    ensures mesh.faceMaterialIndices == [0, 0] && mesh.faceSubMeshIndices == [0, 0]
    ensures mesh.faceSmoothingGroups == [0, 0]
    ensures |mesh.wedgeIndices| / 3 == 2
    ensures mesh.wedgeTangents == tangents && mesh.wedgeBinormals == binormals
    ensures var d := PlaneTexCoordDimensions(extents);
      mesh.wedgeTexCoords[0] == [
        API.Vec2(d.1, 0.0), API.Vec2(d.1, d.0), API.Vec2(0.0, 0.0),
        API.Vec2(0.0, 0.0), API.Vec2(d.1, d.0), API.Vec2(0.0, d.0)]
    ensures forall c :: 1 <= c < |mesh.wedgeTexCoords| ==> mesh.wedgeTexCoords[c] == []
    ensures forall c :: 0 <= c < |mesh.wedgeColors| ==> mesh.wedgeColors[c] == []
  {
    var positions := [
      API.Vec3(-extents.x, extents.y, 0.0), API.Vec3(extents.x, extents.y, 0.0),
      API.Vec3(-extents.x, -extents.y, 0.0), API.Vec3(extents.x, -extents.y, 0.0)];
    var normals := seq(6, _ => PlaneUp);
    var (xDimension, yDimension) := PlaneTexCoordDimensions(extents);
    var texCoords := [
      API.Vec2(yDimension, 0.0), API.Vec2(yDimension, xDimension), API.Vec2(0.0, 0.0),
      API.Vec2(0.0, 0.0), API.Vec2(yDimension, xDimension), API.Vec2(0.0, xDimension)];
    var unusedTexCoords: seq<API.Vec2> := [];
    var unusedColors: seq<API.ColorRGBAF32> := [];
    mesh := API.Mesh(
      vertexPositions := positions,
      vertexOptimizerWeights := [],
      wedgeIndices := [0, 1, 2, 2, 1, 3],
      wedgeNormals := normals,
      wedgeBinormals := binormals,
      wedgeTangents := tangents,
      wedgeTexCoords := [texCoords] + seq(API.MaxMeshTexCoords - 1, _ => unusedTexCoords),
      wedgeColors := seq(API.MaxMeshColorSets, _ => unusedColors),
      faceMaterialIndices := [0, 0],
      faceSmoothingGroups := [0, 0],
      faceSubMeshIndices := [0, 0]);
  }

  // ---------------------------------------------------------------------
  // Static mesh LODs

  /** The build settings of a static mesh source model that the insertion
    * touches; `other` stands for the rest. */
  datatype MeshBuildSettings = MeshBuildSettings(
    recomputeNormals: bool,
    recomputeTangents: bool,
    removeDegenerates: bool,
    buildScale3D: API.Vec3,
    other: nat)

  /** The build settings of a source model `AddSourceModel` creates. */
  const DefaultMeshBuildSettings := MeshBuildSettings(true, true, true, API.Vec3(1.0, 1.0, 1.0), 0)

  /** A source model: its build settings and the face material indices of
    * its mesh description (`None` before one is committed). */
  datatype StaticMeshSourceModel = StaticMeshSourceModel(
    buildSettings: MeshBuildSettings,
    faceMaterials: Option<seq<int>>)

  /** `UStaticMesh` as the LOD helpers see it. */
  class StaticMesh {
    var sourceModels: seq<StaticMeshSourceModel>
    var hasLODGroup: bool
    var staticMaterials: seq<nat>

    constructor(models: seq<StaticMeshSourceModel>, lodGroup: bool, materials: seq<nat>)
      ensures sourceModels == models && hasLODGroup == lodGroup && staticMaterials == materials
    {
      sourceModels := models;
      hasLODGroup := lodGroup;
      staticMaterials := materials;
    }
  }

  /** The LOD index `InsertLODToStaticMesh` writes: a negative request means
    * one past the LODs there were before a LOD group was baked in; a
    * request that names no existing LOD (after the baking) appends one. */
  function StaticTargetLODIndex(target: int, countBefore: nat, countAfter: nat): (t: nat)
    ensures t <= countAfter
    ensures 0 <= target < countAfter ==> t == target
    ensures target >= countAfter ==> t == countAfter
    ensures target < 0 ==> t == if countBefore < countAfter then countBefore else countAfter
  {
    var requested := if target < 0 then countBefore else target;
    if 0 <= requested < countAfter then requested else countAfter
  }

  /** After `GenerateLodsInPackage`, every generated LOD takes the build
    * settings of LOD 0. */
  function LODGroupSourceModels(generated: seq<StaticMeshSourceModel>): (r: seq<StaticMeshSourceModel>)
    ensures |r| == |generated|
    ensures forall i :: 0 <= i < |r| ==> r[i].faceMaterials == generated[i].faceMaterials
    ensures forall i :: 0 <= i < |r| ==> r[i].buildSettings == generated[0].buildSettings
  {
    seq(|generated|, i requires 0 <= i < |generated| =>
      generated[i].(buildSettings := generated[0].buildSettings))
  }

  /** The build settings of an inserted LOD: those of the base LOD with
    * normals, tangents and degenerates left alone and no scaling. */
  function ImportedBuildSettings(base: MeshBuildSettings): (b: MeshBuildSettings)
    ensures !b.recomputeNormals && !b.recomputeTangents && !b.removeDegenerates
    ensures b.buildScale3D == API.Vec3(1.0, 1.0, 1.0) && b.other == base.other
  {
    base.(recomputeNormals := false, recomputeTangents := false, removeDegenerates := false,
          buildScale3D := API.Vec3(1.0, 1.0, 1.0))
  }

  /** The source models after writing `faces` at LOD `t`: an existing LOD is
    * replaced, index `|models|` appends a new one; the others stay. */
  function InsertedSourceModels(models: seq<StaticMeshSourceModel>, t: nat, faces: seq<int>)
    : (r: seq<StaticMeshSourceModel>)
    requires t <= |models|
    ensures |r| == if t < |models| then |models| else |models| + 1
    ensures forall i :: 0 <= i < |models| && i != t ==> r[i] == models[i]
    ensures r[t].faceMaterials == Some(faces)
    ensures r[t].buildSettings
            == ImportedBuildSettings(if 0 < |models| then models[0].buildSettings else DefaultMeshBuildSettings)
  {
    var grown := if t < |models| then models else models + [StaticMeshSourceModel(DefaultMeshBuildSettings, None)];
    grown[t := StaticMeshSourceModel(ImportedBuildSettings(grown[0].buildSettings), Some(faces))]
  }

  /** `InsertLODToStaticMesh`: bakes a LOD group in first, then writes the
    * InstaLOD mesh into the target LOD. With a new material, the material
    * is appended to the mesh and every face of the InstaLOD mesh is moved to
    * it first. `generated` is what the engine's `GenerateLodsInPackage`
    * leaves; the mesh conversion is reduced to the face materials. */
  method InsertLODToStaticMesh(mesh: StaticMesh, faceMaterials: array<int>, targetLODIndex: int,
                               newMaterial: Option<nat>, generated: seq<StaticMeshSourceModel>)
    modifies mesh, faceMaterials
    ensures var models := if old(mesh.hasLODGroup) then LODGroupSourceModels(generated) else old(mesh.sourceModels);
      mesh.sourceModels == InsertedSourceModels(models,
        StaticTargetLODIndex(targetLODIndex, |old(mesh.sourceModels)|, |models|), faceMaterials[..])
    ensures !mesh.hasLODGroup
    ensures newMaterial.None? ==>
      mesh.staticMaterials == old(mesh.staticMaterials) && faceMaterials[..] == old(faceMaterials[..])
    ensures newMaterial.Some? ==> mesh.staticMaterials == old(mesh.staticMaterials) + [newMaterial.value]
    ensures newMaterial.Some? ==>
      forall k :: 0 <= k < faceMaterials.Length ==> faceMaterials[k] == |old(mesh.staticMaterials)|
  {
    var countBefore := |mesh.sourceModels|;
    if mesh.hasLODGroup {
      mesh.sourceModels := generated;
      mesh.hasLODGroup := false;
      var index := 1;
      while index < |mesh.sourceModels|
        invariant |mesh.sourceModels| == |generated|
        invariant 1 <= index || |generated| == 0
        invariant forall i :: 0 <= i < |generated| ==> mesh.sourceModels[i].faceMaterials == generated[i].faceMaterials
        invariant |generated| > 0 ==> mesh.sourceModels[0] == generated[0]
        invariant !mesh.hasLODGroup && mesh.staticMaterials == old(mesh.staticMaterials)
        invariant faceMaterials[..] == old(faceMaterials[..])
        invariant forall i :: 1 <= i < |generated| ==>
                    mesh.sourceModels[i].buildSettings == if i < index then generated[0].buildSettings else generated[i].buildSettings
      {
        mesh.sourceModels := mesh.sourceModels[index := mesh.sourceModels[index].(buildSettings := mesh.sourceModels[0].buildSettings)];
        index := index + 1;
      }
      assert mesh.sourceModels == LODGroupSourceModels(generated);
    }
    var t := StaticTargetLODIndex(targetLODIndex, countBefore, |mesh.sourceModels|);
    ghost var models := mesh.sourceModels;
    if newMaterial.Some? {
      var newIndex := |mesh.staticMaterials|;
      mesh.staticMaterials := mesh.staticMaterials + [newMaterial.value];
      for k := 0 to faceMaterials.Length
        invariant mesh.sourceModels == models && !mesh.hasLODGroup
        invariant mesh.staticMaterials == old(mesh.staticMaterials) + [newMaterial.value]
        invariant forall j :: 0 <= j < k ==> faceMaterials[j] == newIndex
      {
        faceMaterials[k] := newIndex;
      }
    }
    mesh.sourceModels := InsertedSourceModels(mesh.sourceModels, t, faceMaterials[..]);
  }

  /** `RemoveAllLODsFromStaticMesh`: removes the source models from the last
    * down to LOD 1, so only LOD 0 is left. */
  method RemoveAllLODsFromStaticMesh(mesh: StaticMesh?)
    modifies mesh
    ensures mesh != null ==>
      mesh.sourceModels == old(mesh.sourceModels)[..if |old(mesh.sourceModels)| > 0 then 1 else 0]
      && mesh.hasLODGroup == old(mesh.hasLODGroup) && mesh.staticMaterials == old(mesh.staticMaterials)
  {
    if mesh == null {
      return;
    }
    ghost var models := mesh.sourceModels;
    var index := |mesh.sourceModels| - 1;
    while index > 0
      invariant -1 <= index < |models|
      invariant |models| > 0 ==> 0 <= index
      invariant mesh.sourceModels == models[..index + 1]
      invariant mesh.hasLODGroup == old(mesh.hasLODGroup) && mesh.staticMaterials == old(mesh.staticMaterials)
    {
      // `index` is always the last LOD, so removing it drops the tail.
      mesh.sourceModels := mesh.sourceModels[..index];
      index := index - 1;
    }
  }

  // ---------------------------------------------------------------------
  // Skeletal mesh LODs

  /** The reduction settings of a skeletal LOD that the insertion touches. */
  datatype SkeletalReductionSettings = SkeletalReductionSettings(
    baseLOD: int,
    numOfTrianglesPercentage: real,
    numOfVertPercentage: real)

  /** Default reduction settings with both percentages at 100%, so that the
    * engine does not regenerate the inserted LOD. */
  const InsertedLODReductionSettings := SkeletalReductionSettings(0, 1.0, 1.0)

  /** `FSkeletalMeshLODInfo`: the default screen size, the reduction
    * settings, and `other` for the rest. */
  datatype SkeletalMeshLODInfo = SkeletalMeshLODInfo(
    screenSize: real,
    reductionSettings: SkeletalReductionSettings,
    other: nat)

  /** `USkeletalMesh` as the LOD helpers see it: the LOD models of its
    * imported model (by identity) and its LOD infos. */
  class SkeletalMesh {
    var lodModels: seq<nat>
    var lodInfos: seq<SkeletalMeshLODInfo>

    /** Every LOD model has its LOD info. */
    predicate Valid()
      reads this
    {
      |lodModels| <= |lodInfos|
    }

    constructor(models: seq<nat>, infos: seq<SkeletalMeshLODInfo>)
      requires |models| <= |infos|
      ensures Valid() && lodModels == models && lodInfos == infos
    {
      lodModels := models;
      lodInfos := infos;
    }
  }

  /** The LOD index `InsertLODToSkeletalMesh` writes: a negative request or
    * one past the end becomes the number of LOD models (append). */
  function SkeletalTargetLODIndex(target: int, count: nat): (t: nat)
    ensures t <= count
    ensures 0 <= target <= count ==> t == target
    ensures target < 0 || target > count ==> t == count
  {
    if target < 0 || target > count then count else target
  }

  /** A LOD other than `t` that was reduced from `t` is re-based on LOD 0. */
  function RebasedLODInfo(info: SkeletalMeshLODInfo, i: nat, t: nat): (r: SkeletalMeshLODInfo)
    ensures r.screenSize == info.screenSize && r.other == info.other
    ensures r.reductionSettings.numOfTrianglesPercentage == info.reductionSettings.numOfTrianglesPercentage
    ensures r.reductionSettings.numOfVertPercentage == info.reductionSettings.numOfVertPercentage
    ensures r.reductionSettings.baseLOD
            == if i != t && info.reductionSettings.baseLOD == t then 0 else info.reductionSettings.baseLOD
  {
    if i != t && info.reductionSettings.baseLOD == t then
      info.(reductionSettings := info.reductionSettings.(baseLOD := 0))
    else info
  }

  /** The infos with the first `count` re-based away from `t`. */
  function RebasedLODInfos(infos: seq<SkeletalMeshLODInfo>, count: nat, t: nat): (r: seq<SkeletalMeshLODInfo>)
    ensures |r| == |infos|
  {
    seq(|infos|, i requires 0 <= i < |infos| => if i < count then RebasedLODInfo(infos[i], i, t) else infos[i])
  }

  /** The LOD infos after inserting at `t` into a mesh with `n` LOD models:
    * re-basing when an existing LOD is replaced, an added info when `t` has
    * none, and at `t` the info of LOD max(t - 1, 0) with fresh reduction
    * settings and half its screen size (0.5 in place of none). */
  function InsertedLODInfos(infos: seq<SkeletalMeshLODInfo>, n: nat, t: nat, added: SkeletalMeshLODInfo)
    : seq<SkeletalMeshLODInfo>
    requires n <= |infos| && t <= n
  {
    var rebased := if t != n then RebasedLODInfos(infos, n, t) else infos;
    var grown := if t < |rebased| then rebased else rebased + [added];
    var copy := grown[if t >= 1 then t - 1 else 0];
    var info := copy.(reductionSettings := InsertedLODReductionSettings);
    grown[t := info.(screenSize := if info.screenSize <= 0.0 then 0.5 else info.screenSize * 0.5)]
  }

  /** What the insertion does to the LOD infos:
    * - there is one more info exactly when `t` had none;
    * - the info at `t` copies LOD max(t - 1, 0), takes the fresh reduction
    *   settings, and has half its screen size, which is positive (0.5 in
    *   place of none);
    * - every other LOD keeps its info, except that when an existing LOD is
    *   replaced, a LOD reduced from it is re-based on LOD 0. */
  lemma {:induction false} InsertedLODInfosProperties(infos: seq<SkeletalMeshLODInfo>, n: nat, t: nat,
                                                      added: SkeletalMeshLODInfo)
    requires n <= |infos| && t <= n
    ensures var r := InsertedLODInfos(infos, n, t, added);
      && |r| == (if t < |infos| then |infos| else |infos| + 1)
      && r[t].reductionSettings == InsertedLODReductionSettings
      && r[t].screenSize > 0.0
      && (var base := if t >= 1 then infos[t - 1] else if 0 < |infos| then infos[0] else added;
          r[t].screenSize == if base.screenSize <= 0.0 then 0.5 else base.screenSize / 2.0)
      && r[t].other == (if t >= 1 then infos[t - 1].other else if 0 < |infos| then infos[0].other else added.other)
      && (forall i :: 0 <= i < |infos| && i != t ==>
            r[i] == if t != n && i < n then RebasedLODInfo(infos[i], i, t) else infos[i])
      && (t != n && t != 0 ==> forall i :: 0 <= i < n && i != t ==> r[i].reductionSettings.baseLOD != t)
  {
    var r := InsertedLODInfos(infos, n, t, added);
    var rebased := if t != n then RebasedLODInfos(infos, n, t) else infos;
    var grown := if t < |rebased| then rebased else rebased + [added];
    assert forall i :: 0 <= i < |infos| ==> grown[i] == rebased[i];
    if t >= 1 {
      assert grown[t - 1].other == infos[t - 1].other && grown[t - 1].screenSize == infos[t - 1].screenSize;
    }
  }

  /** `InsertLODToSkeletalMesh`: nothing happens without the SDK or the
    * mesh; otherwise the LOD model at the target index is replaced or
    * appended and its LOD info set up as `InsertedLODInfos` says. `added`
    * is the info `AddLODInfo` creates. Unbinding cloth and the mesh
    * conversion are not modelled. */
  method InsertLODToSkeletalMesh(mesh: SkeletalMesh?, instaLODAvailable: bool, targetLODIndex: int,
                                 newModel: nat, added: SkeletalMeshLODInfo)
    requires mesh != null ==> mesh.Valid()
    modifies mesh
    ensures mesh != null ==> mesh.Valid()
    ensures mesh != null && !instaLODAvailable ==>
      mesh.lodModels == old(mesh.lodModels) && mesh.lodInfos == old(mesh.lodInfos)
    ensures mesh != null && instaLODAvailable ==>
      var n := |old(mesh.lodModels)|;
      var t := SkeletalTargetLODIndex(targetLODIndex, n);
      && mesh.lodModels == (if t < n then old(mesh.lodModels)[t := newModel] else old(mesh.lodModels) + [newModel])
      && mesh.lodInfos == InsertedLODInfos(old(mesh.lodInfos), n, t, added)
  {
    if mesh == null || !instaLODAvailable {
      return;
    }
    var n := |mesh.lodModels|;
    var t := SkeletalTargetLODIndex(targetLODIndex, n);
    ghost var infos := mesh.lodInfos;
    if t != n {
      for i := 0 to n
        invariant mesh.lodModels == old(mesh.lodModels)
        invariant mesh.lodInfos == RebasedLODInfos(infos, i, t)
      {
        if i == t {
          continue;
        }
        if mesh.lodInfos[i].reductionSettings.baseLOD != t {
          continue;
        }
        mesh.lodInfos := mesh.lodInfos[i := mesh.lodInfos[i].(reductionSettings := mesh.lodInfos[i].reductionSettings.(baseLOD := 0))];
      }
    }
    var baseLOD := if t - 1 > 0 then t - 1 else 0;
    if t >= |mesh.lodInfos| {
      mesh.lodInfos := mesh.lodInfos + [added];
    }
    if t < |mesh.lodModels| {
      mesh.lodModels := mesh.lodModels[t := newModel];
    } else {
      mesh.lodModels := mesh.lodModels + [newModel];
    }
    var info := mesh.lodInfos[baseLOD].(reductionSettings := InsertedLODReductionSettings);
    if info.screenSize <= 0.0 {
      info := info.(screenSize := 0.5);
    } else {
      info := info.(screenSize := info.screenSize * 0.5);
    }
    mesh.lodInfos := mesh.lodInfos[t := info];
  }

  /** `RemoveAllLODsFromSkeletalMesh`: removes LOD 1 until one LOD model is
    * left, then the same for the LOD infos. */
  method RemoveAllLODsFromSkeletalMesh(mesh: SkeletalMesh?)
    requires mesh != null ==> mesh.Valid()
    modifies mesh
    ensures mesh != null ==> mesh.Valid()
    ensures mesh != null ==>
      mesh.lodModels == old(mesh.lodModels)[..if |old(mesh.lodModels)| > 0 then 1 else 0]
      && mesh.lodInfos == old(mesh.lodInfos)[..if |old(mesh.lodInfos)| > 0 then 1 else 0]
  {
    if mesh == null {
      return;
    }
    ghost var models := mesh.lodModels;
    ghost var infos := mesh.lodInfos;
    while |mesh.lodModels| > 1
      invariant mesh.lodInfos == infos
      invariant |models| > 0 ==> 1 <= |mesh.lodModels| <= |models| && mesh.lodModels[0] == models[0]
      invariant |models| == 0 ==> mesh.lodModels == []
      decreases |mesh.lodModels|
    {
      mesh.lodModels := mesh.lodModels[..1] + mesh.lodModels[2..];
    }
    while |mesh.lodInfos| > 1
      invariant mesh.lodModels == models[..if |models| > 0 then 1 else 0]
      invariant |infos| > 0 ==> 1 <= |mesh.lodInfos| <= |infos| && mesh.lodInfos[0] == infos[0]
      invariant |infos| == 0 ==> mesh.lodInfos == []
      decreases |mesh.lodInfos|
    {
      mesh.lodInfos := mesh.lodInfos[..1] + mesh.lodInfos[2..];
    }
  }

  // ---------------------------------------------------------------------
  // Finalizing a script result

  datatype SavingOption = InsertAsLOD | OnlyReturnInOutArray

  /** `UInstaLODResultSettings`. */
  datatype ResultSettings = ResultSettings(
    savingOption: SavingOption,
    targetLODIndex: int,
    pivotPosition: Base.PivotPosition,
    position: API.Vec3)

  /** The kind of the entry object. */
  datatype EntryKind = StaticMeshEntry | SkeletalMeshEntry | OtherEntry

  /** Where `CustomizePivotPosition` puts the pivot: a position, relative to
    * the bounds (each coordinate in [-1, 1]) when `limitedRange` holds. */
  datatype PivotPlacement = PivotPlacement(position: API.Vec3, limitedRange: bool)

  /** What `FinalizeScriptProcessResult` adds to the output array: the entry
    * itself, or a new component holding a new mesh (for a static mesh, with
    * the pivot placement applied to it, if any). */
  datatype OutputObject =
    | ReturnedEntry
    | NewStaticMeshComponent(pivot: Option<PivotPlacement>)
    | NewSkeletalMeshComponent

  /** The `TArray<UObject*>` the caller passes by reference. */
  class ObjectArray {
    var objects: seq<OutputObject>

    constructor()
      ensures objects == []
    {
      objects := [];
    }
  }

  function Clamp01(x: real): (r: real)
    ensures 0.0 <= r <= 1.0
    ensures 0.0 <= x <= 1.0 ==> r == x
  {
    if x < 0.0 then 0.0 else if x > 1.0 then 1.0 else x
  }

  /** A coordinate of [0, 1] mapped onto [-1, 1]. */
  function Relative(x: real): (r: real)
    ensures -1.0 <= r <= 1.0
    ensures 0.0 <= x <= 1.0 ==> (r + 1.0) / 2.0 == x
  {
    (Clamp01(x) - 0.5) * 2.0
  }

  /** The pivot placement of a pivot position other than the default: the
    * presets and the limited custom position are relative to the bounds,
    * the custom position is taken as it is. */
  function PivotPlacementFor(pivot: Base.PivotPosition, position: API.Vec3): (r: PivotPlacement)
    requires pivot != Base.Default
    ensures !r.limitedRange <==> pivot == Base.Custom
    ensures pivot == Base.Custom ==> r.position == position
    ensures r.limitedRange ==>
      -1.0 <= r.position.x <= 1.0 && -1.0 <= r.position.y <= 1.0 && -1.0 <= r.position.z <= 1.0
  {
    match pivot
    case Center => PivotPlacement(API.Vec3(0.0, 0.0, 0.0), true)
    case Top => PivotPlacement(API.Vec3(0.0, 0.0, 1.0), true)
    case Bottom => PivotPlacement(API.Vec3(0.0, 0.0, -1.0), true)
    case Custom => PivotPlacement(position, false)
    case CustomLimited => PivotPlacement(API.Vec3(Relative(position.x), Relative(position.y), Relative(position.z)), true)
  }

  /** The presets are limited custom positions: the centre of the bounds,
    * the middle of the top face and the middle of the bottom face. */
  lemma PivotPresetsAreLimitedPositions(position: API.Vec3)
    ensures PivotPlacementFor(Base.Center, position) == PivotPlacementFor(Base.CustomLimited, API.Vec3(0.5, 0.5, 0.5))
    ensures PivotPlacementFor(Base.Top, position) == PivotPlacementFor(Base.CustomLimited, API.Vec3(0.5, 0.5, 1.0))
    ensures PivotPlacementFor(Base.Bottom, position) == PivotPlacementFor(Base.CustomLimited, API.Vec3(0.5, 0.5, 0.0))
  {
  }

  /** The object a successful finalization adds to the output array. */
  function FinalizedObject(entry: EntryKind, settings: ResultSettings, freezing: bool): (o: OutputObject)
    requires entry != OtherEntry
    ensures settings.savingOption == InsertAsLOD <==> o == ReturnedEntry
    ensures o.NewStaticMeshComponent? <==> settings.savingOption == OnlyReturnInOutArray && entry == StaticMeshEntry
    ensures o.NewStaticMeshComponent? ==>
      (o.pivot.Some? <==> freezing && settings.pivotPosition != Base.Default)
  {
    match settings.savingOption
    case InsertAsLOD => ReturnedEntry
    case OnlyReturnInOutArray =>
      if entry == StaticMeshEntry then
        NewStaticMeshComponent(
          if settings.pivotPosition != Base.Default && freezing
          then Some(PivotPlacementFor(settings.pivotPosition, settings.position))
          else None)
      else NewSkeletalMeshComponent
  }

  /** `FinalizeScriptProcessResult`: fails, leaving the output alone, without
    * an entry, the SDK, an output mesh or result settings, and for an entry
    * that is neither a static nor a skeletal mesh; otherwise adds one
    * object to the output and succeeds. Writing the mesh into the entry's
    * LOD or into the new mesh is not modelled here. */
  method FinalizeScriptProcessResult(entry: Option<EntryKind>, instaLODAvailable: bool,
                                     outputMeshAvailable: bool, settings: Option<ResultSettings>,
                                     output: ObjectArray, freezing: bool)
    returns (ok: bool)
    modifies output
    ensures ok <==> (entry.Some? && instaLODAvailable && outputMeshAvailable && settings.Some?
                     && entry.value != OtherEntry)
    ensures !ok ==> output.objects == old(output.objects)
    ensures ok ==> output.objects == old(output.objects) + [FinalizedObject(entry.value, settings.value, freezing)]
  {
    if entry.None? || !instaLODAvailable || !outputMeshAvailable || settings.None? {
      return false;
    }
    if entry.value == OtherEntry {
      return false;
    }
    var resultSettings := settings.value;
    match resultSettings.savingOption {
      case InsertAsLOD =>
        output.objects := output.objects + [ReturnedEntry];
      case OnlyReturnInOutArray =>
        if entry.value == StaticMeshEntry {
          var pivot: Option<PivotPlacement> := None;
          if resultSettings.pivotPosition != Base.Default && freezing {
            pivot := Some(PivotPlacementFor(resultSettings.pivotPosition, resultSettings.position));
          }
          output.objects := output.objects + [NewStaticMeshComponent(pivot)];
        } else {
          output.objects := output.objects + [NewSkeletalMeshComponent];
        }
    }
    return true;
  }
}
