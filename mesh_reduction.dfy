/** The mesh reduction module's buffer bookkeeping between engine meshes and
  * SDK meshes (`UEInstaLODMeshHelper`, `UEInstaLODSkeletalMeshHelper` and
  * the texture page copies): what it keeps, skips, renumbers and converts.
  * The SDK's own geometry processing is not part of this model.
  */
module InstaLODMeshReduction {
  import opened Wrappers
  import API = InstaLODAPI
  import opened UEColor

  // ---------------------------------------------------------------------
  // Sanitising float arrays

  /** A 32-bit float: a finite number, an infinity or not a number. */
  datatype Float = Finite(value: real) | Infinity(negative: bool) | NaN

  predicate IsFinite(f: Float) {
    f.Finite?
  }

  /** What sanitising leaves in one element. */
  function SanitizedValue(f: Float, defaultValue: Float): (r: Float)
    ensures IsFinite(f) ==> r == f
    ensures !IsFinite(f) ==> r == defaultValue
  {
    if f.NaN? || !IsFinite(f) then defaultValue else f
  }

  /** `SanitizeFloatArray`: every NaN or infinite element among the first
    * `numElements` is replaced by the default; every other element is left
    * as it is. */
  method SanitizeFloatArray(data: array<Float>, numElements: nat, defaultValue: Float)
    requires numElements <= data.Length
    modifies data
    ensures forall i :: 0 <= i < numElements ==> data[i] == SanitizedValue(old(data[i]), defaultValue)
    ensures forall i :: numElements <= i < data.Length ==> data[i] == old(data[i])
  {
    for index := 0 to numElements
      invariant forall i :: 0 <= i < index ==> data[i] == SanitizedValue(old(data[i]), defaultValue)
      invariant forall i :: index <= i < data.Length ==> data[i] == old(data[i])
    {
      if data[index].NaN? || !IsFinite(data[index]) {
        data[index] := defaultValue;
      }
    }
  }

  /** With a finite default (the callers pass 0.0), a sanitised element is
    * finite, and sanitising it again changes nothing. */
  lemma SanitizedValueIsFinite(f: Float, defaultValue: Float)
    requires IsFinite(defaultValue)
    ensures IsFinite(SanitizedValue(f, defaultValue))
    ensures SanitizedValue(SanitizedValue(f, defaultValue), defaultValue) == SanitizedValue(f, defaultValue)
  {
  }

  // ---------------------------------------------------------------------
  // Texture coordinate channels

  /** The engine's `INDEX_NONE`. */
  const IndexNone: int := -1

  /** The number of channels among the first `n` that hold one texture
    * coordinate per wedge. */
  function FullChannelsBefore(channelCounts: seq<nat>, wedgeCount: nat, n: nat): (k: nat)
    requires n <= |channelCounts|
    ensures k <= n
  {
    if n == 0 then 0
    else FullChannelsBefore(channelCounts, wedgeCount, n - 1) + (if channelCounts[n - 1] == wedgeCount then 1 else 0)
  }

  /** The channel remapping of `InstaLODMeshToMeshDescription`: a channel
    * whose count is the wedge count gets the next compact index, every other
    * channel gets `INDEX_NONE`, and the number of compact indices is the
    * channel count of the engine mesh. */
  method RemapTexCoordChannels(channelCounts: seq<nat>, wedgeCount: nat) returns (remap: seq<int>, texcoordsCount: nat)
    ensures |remap| == |channelCounts|
    ensures texcoordsCount == FullChannelsBefore(channelCounts, wedgeCount, |channelCounts|)
    ensures forall c :: 0 <= c < |channelCounts| ==>
      remap[c] == if channelCounts[c] == wedgeCount then FullChannelsBefore(channelCounts, wedgeCount, c) else IndexNone
  {
    remap := [];
    texcoordsCount := 0;
    for channel := 0 to |channelCounts|
      invariant |remap| == channel
      invariant texcoordsCount == FullChannelsBefore(channelCounts, wedgeCount, channel)
      invariant forall c :: 0 <= c < channel ==>
        remap[c] == if channelCounts[c] == wedgeCount then FullChannelsBefore(channelCounts, wedgeCount, c) else IndexNone
    {
      var index := IndexNone;
      if channelCounts[channel] == wedgeCount {
        index := texcoordsCount;
        texcoordsCount := texcoordsCount + 1;
      }
      remap := remap + [index];
    }
  }

  /** Later channels never get smaller compact indices. */
  lemma {:induction false} FullChannelsBeforeMonotone(channelCounts: seq<nat>, wedgeCount: nat, m: nat, n: nat)
    requires m <= n <= |channelCounts|
    ensures FullChannelsBefore(channelCounts, wedgeCount, m) <= FullChannelsBefore(channelCounts, wedgeCount, n)
    decreases n - m
  {
    if m < n {
      FullChannelsBeforeMonotone(channelCounts, wedgeCount, m, n - 1);
    }
  }

  /** Every compact index below the count belongs to exactly one full
    * channel. */
  lemma {:induction false} FullChannelsBeforeOnto(channelCounts: seq<nat>, wedgeCount: nat, n: nat, j: nat)
    requires n <= |channelCounts| && j < FullChannelsBefore(channelCounts, wedgeCount, n)
    ensures exists c :: 0 <= c < n && channelCounts[c] == wedgeCount && FullChannelsBefore(channelCounts, wedgeCount, c) == j
  {
    if j < FullChannelsBefore(channelCounts, wedgeCount, n - 1) {
      FullChannelsBeforeOnto(channelCounts, wedgeCount, n - 1, j);
    } else {
      assert channelCounts[n - 1] == wedgeCount && FullChannelsBefore(channelCounts, wedgeCount, n - 1) == j;
    }
  }

  /** The remapping is compact: the full channels get the indices
    * 0 .. count-1, in channel order and each exactly once. */
  lemma RemapIsCompact(channelCounts: seq<nat>, wedgeCount: nat, c1: nat, c2: nat, j: nat)
    requires c1 < c2 < |channelCounts| && channelCounts[c1] == wedgeCount && channelCounts[c2] == wedgeCount
    requires j < FullChannelsBefore(channelCounts, wedgeCount, |channelCounts|)
    ensures FullChannelsBefore(channelCounts, wedgeCount, c1) < FullChannelsBefore(channelCounts, wedgeCount, c2)
    ensures FullChannelsBefore(channelCounts, wedgeCount, c2) < FullChannelsBefore(channelCounts, wedgeCount, |channelCounts|)
    ensures exists c :: 0 <= c < |channelCounts| && channelCounts[c] == wedgeCount && FullChannelsBefore(channelCounts, wedgeCount, c) == j
  {
    FullChannelsBeforeMonotone(channelCounts, wedgeCount, c1 + 1, c2);
    FullChannelsBeforeMonotone(channelCounts, wedgeCount, c2 + 1, |channelCounts|);
    FullChannelsBeforeOnto(channelCounts, wedgeCount, |channelCounts|, j);
  }

  // ---------------------------------------------------------------------
  // Degenerate triangles

  /** Triangle `t` is degenerate when two of its corners reach the same
    * engine vertex. */
  predicate Degenerate(wedgeIndices: seq<nat>, vertexIds: seq<int>, t: nat)
    requires 3 * t + 3 <= |wedgeIndices|
    requires forall w :: 0 <= w < |wedgeIndices| ==> wedgeIndices[w] < |vertexIds|
  {
    var a, b, c := vertexIds[wedgeIndices[3 * t]], vertexIds[wedgeIndices[3 * t + 1]], vertexIds[wedgeIndices[3 * t + 2]];
    a == b || a == c || b == c
  }

  predicate StrictlyAscending(s: seq<nat>) {
    forall i, j :: 0 <= i < j < |s| ==> s[i] < s[j]
  }

  /** The triangle loop of `InstaLODMeshToMeshDescription`: the triangles
    * that become polygons of the engine mesh, in order. A degenerate
    * triangle is skipped; every other one is emitted. */
  method EmittedTriangles(wedgeIndices: seq<nat>, vertexIds: seq<int>, triangleCount: nat) returns (emitted: seq<nat>)
    requires 3 * triangleCount <= |wedgeIndices|
    requires forall w :: 0 <= w < |wedgeIndices| ==> wedgeIndices[w] < |vertexIds|
    ensures forall t: nat :: t in emitted <==> t < triangleCount && !Degenerate(wedgeIndices, vertexIds, t)
    ensures StrictlyAscending(emitted)
  {
    emitted := [];
    for triangle := 0 to triangleCount
      invariant forall t: nat :: t in emitted <==> t < triangle && !Degenerate(wedgeIndices, vertexIds, t)
      invariant forall i :: 0 <= i < |emitted| ==> emitted[i] < triangle
      invariant StrictlyAscending(emitted)
    {
      var basis := triangle * 3;
      var a, b, c := vertexIds[wedgeIndices[basis]], vertexIds[wedgeIndices[basis + 1]], vertexIds[wedgeIndices[basis + 2]];
      if a == b || a == c || b == c {
        continue;
      }
      emitted := emitted + [triangle];
    }
  }

  // ---------------------------------------------------------------------
  // Skeletal mesh sections

  datatype SkelMeshSection = SkelMeshSection(
    disabled: bool,
    /** The last LOD the section is generated for, or -1 for all. */
    generateUpToLodIndex: int,
    baseVertexIndex: nat,
    numVertices: nat,
    baseIndex: nat,
    numTriangles: nat)

  /** A section is skipped when it is disabled or, for a given LOD index,
    * when it is generated only up to an earlier LOD. */
  predicate SectionSkipped(section: SkelMeshSection, lodIndex: int) {
    section.disabled
    || (lodIndex != -1 && section.generateUpToLodIndex != -1 && section.generateUpToLodIndex < lodIndex)
  }

  /** `GetSkipSectionsForLODModel`: `model` is the sections of the LOD
    * model, `None` for a null model. The result lists the skipped sections
    * in ascending order. */
  method GetSkipSectionsForLODModel(model: Option<seq<SkelMeshSection>>, lodIndex: int) returns (skip: seq<nat>)
    ensures model.None? ==> skip == []
    ensures model.Some? ==> forall i: nat :: i in skip <==> i < |model.value| && SectionSkipped(model.value[i], lodIndex)
    ensures StrictlyAscending(skip)
  {
    if model.None? {
      return [];
    }
    var sections := model.value;
    skip := [];
    for sectionIndex := 0 to |sections|
      invariant forall i: nat :: i in skip <==> i < sectionIndex && SectionSkipped(sections[i], lodIndex)
      invariant forall k :: 0 <= k < |skip| ==> skip[k] < sectionIndex
      invariant StrictlyAscending(skip)
    {
      var section := sections[sectionIndex];
      if section.disabled {
        skip := skip + [sectionIndex];
        continue;
      }
      if lodIndex != -1 {
        var lodEnabledIndex := section.generateUpToLodIndex;
        if lodEnabledIndex != -1 && lodEnabledIndex < lodIndex {
          skip := skip + [sectionIndex];
        }
      }
    }
  }

  /** The valid sections of `SkeletalLODModelToInstaLODMesh`: every section
    * not in the skip list, in ascending order. */
  method ValidSectionIndices(sectionCount: nat, skip: seq<nat>) returns (valid: seq<nat>)
    ensures forall i: nat :: i in valid <==> i < sectionCount && i !in skip
    ensures StrictlyAscending(valid)
  {
    valid := [];
    for sectionIndex := 0 to sectionCount
      invariant forall i: nat :: i in valid <==> i < sectionIndex && i !in skip
      invariant forall k :: 0 <= k < |valid| ==> valid[k] < sectionIndex
      invariant StrictlyAscending(valid)
    {
      if sectionIndex in skip {
        continue;
      }
      valid := valid + [sectionIndex];
    }
  }

  /** The vertices of the skipped sections among the first `s`. */
  function SkippedVerticesBefore(sections: seq<SkelMeshSection>, skip: seq<nat>, s: nat): (n: nat)
    requires s <= |sections|
  {
    if s == 0 then 0
    else SkippedVerticesBefore(sections, skip, s - 1) + (if s - 1 in skip then sections[s - 1].numVertices else 0)
  }

  /** The vertices of the kept sections among the first `s`: where the
    * vertices of section `s` start in the SDK mesh, which holds the kept
    * sections' vertices one section after the other. */
  function KeptVerticesBefore(sections: seq<SkelMeshSection>, skip: seq<nat>, s: nat): (n: nat)
    requires s <= |sections|
  {
    if s == 0 then 0
    else KeptVerticesBefore(sections, skip, s - 1) + (if s - 1 in skip then 0 else sections[s - 1].numVertices)
  }

  /** The vertices of all sections among the first `s`. */
  function VerticesBefore(sections: seq<SkelMeshSection>, s: nat): (n: nat)
    requires s <= |sections|
  {
    if s == 0 then 0 else VerticesBefore(sections, s - 1) + sections[s - 1].numVertices
  }

  /** The `SkippedIndexOffset` lambda: the vertex count of the skipped
    * sections before `sectionIndex`, 0 for the first section. */
  method SkippedIndexOffset(sections: seq<SkelMeshSection>, skip: seq<nat>, sectionIndex: nat) returns (indexOffset: nat)
    requires sectionIndex <= |sections|
    ensures indexOffset == SkippedVerticesBefore(sections, skip, sectionIndex)
    ensures sectionIndex == 0 ==> indexOffset == 0
  {
    if sectionIndex == 0 {
      return 0;
    }
    indexOffset := 0;
    for current := 0 to sectionIndex
      invariant indexOffset == SkippedVerticesBefore(sections, skip, current)
    {
      if current !in skip {
        continue;
      }
      indexOffset := indexOffset + sections[current].numVertices;
    }
  }

  /** Every vertex before a section belongs to a skipped or to a kept
    * section. */
  lemma {:induction false} VerticesBeforeSplit(sections: seq<SkelMeshSection>, skip: seq<nat>, s: nat)
    requires s <= |sections|
    ensures VerticesBefore(sections, s) == SkippedVerticesBefore(sections, skip, s) + KeptVerticesBefore(sections, skip, s)
  {
    if s > 0 {
      VerticesBeforeSplit(sections, skip, s - 1);
    }
  }

  /** When the sections lie one after the other in the engine's vertex
    * buffer, subtracting the offset from a kept section's vertex index gives
    * that vertex's index in the SDK mesh: wedge indices stay on the vertex
    * they named. */
  lemma SkippedIndexOffsetRebasesVertices(sections: seq<SkelMeshSection>, skip: seq<nat>, s: nat, v: nat)
    requires s < |sections| && s !in skip
    requires sections[s].baseVertexIndex == VerticesBefore(sections, s)
    requires sections[s].baseVertexIndex <= v < sections[s].baseVertexIndex + sections[s].numVertices
    ensures v - SkippedVerticesBefore(sections, skip, s) == KeptVerticesBefore(sections, skip, s) + (v - sections[s].baseVertexIndex)
    ensures v - SkippedVerticesBefore(sections, skip, s) < KeptVerticesBefore(sections, skip, |sections|)
  {
    VerticesBeforeSplit(sections, skip, s);
    KeptVerticesMonotone(sections, skip, s + 1, |sections|);
  }

  lemma {:induction false} KeptVerticesMonotone(sections: seq<SkelMeshSection>, skip: seq<nat>, m: nat, n: nat)
    requires m <= n <= |sections|
    ensures KeptVerticesBefore(sections, skip, m) <= KeptVerticesBefore(sections, skip, n)
    decreases n - m
  {
    if m < n {
      KeptVerticesMonotone(sections, skip, m, n - 1);
    }
  }

  // ---------------------------------------------------------------------
  // Bone influences

  /** The SDK bone data for one influence slot of an engine vertex: an empty
    * slot (weight 0) gets the default bone data; otherwise the bone goes
    * through the section's bone map and the weight becomes a fraction of
    * 255. */
  function ImportedBoneData(weight: byte, bone: nat, boneMap: seq<nat>): (r: API.BoneData)
    requires weight != 0 ==> bone < |boneMap|
    ensures weight == 0 ==> r == API.DefaultBoneData
    ensures weight != 0 ==> r.boneIndex == boneMap[bone] && r.boneInfluence * 255.0 == weight as real
    ensures 0.0 <= r.boneInfluence <= 1.0
  {
    if weight == 0 then API.DefaultBoneData
    else API.BoneData(boneMap[bone], weight as real / 255.0)
  }

  /** The engine's `MAX_TOTAL_INFLUENCES`: the influence slots of an engine
    * vertex (12 in the engine release the plugin is built for). The import
    * initialises the SDK's skinning data with this many slots per vertex, and
    * both influence loops run over this many slots. */
  const MaxTotalInfluences: nat := 12

  /** The influence loop of `SkeletalLODModelToInstaLODMesh` for one vertex:
    * one bone data per slot. */
  method ImportBoneData(weights: seq<byte>, bones: seq<nat>, boneMap: seq<nat>) returns (boneData: seq<API.BoneData>)
    requires |weights| == MaxTotalInfluences
    requires |bones| == |weights|
    requires forall k :: 0 <= k < |weights| && weights[k] != 0 ==> bones[k] < |boneMap|
    ensures |boneData| == |weights|
    ensures forall k :: 0 <= k < |weights| ==> boneData[k] == ImportedBoneData(weights[k], bones[k], boneMap)
  {
    boneData := [];
    for boneIndex := 0 to |weights|
      invariant |boneData| == boneIndex
      invariant forall k :: 0 <= k < boneIndex ==> boneData[k] == ImportedBoneData(weights[k], bones[k], boneMap)
    {
      if weights[boneIndex] == 0 {
        boneData := boneData + [API.DefaultBoneData];
        continue;
      }
      boneData := boneData + [API.BoneData(boneMap[bones[boneIndex]], weights[boneIndex] as real / 255.0)];
    }
  }

  /** An engine influence: `FVertInfluence`. */
  datatype VertInfluence = VertInfluence(vertIndex: nat, boneIndex: nat, weight: real)

  /** The smallest weight handed back to the engine. */
  const MinimumInfluenceWeight: real := 1.0 / 250.0

  /** Whether `SkeletalLODModelFromInstaLODMesh` hands a slot back to the
    * engine: it needs a positive weight, a valid bone and a weight of at
    * least 1/250. */
  predicate InfluenceKept(b: API.BoneData) {
    !(b.boneInfluence <= 0.0 || b.boneIndex == API.BoneIndexInvalid) && !(b.boneInfluence < MinimumInfluenceWeight)
  }

  function SlotVertex(slot: nat, influencesPerVertex: nat): nat {
    if influencesPerVertex == 0 then 0 else slot / influencesPerVertex
  }

  /** The influences exported from the first `n` slots, in slot order. */
  function ExportedInfluences(boneData: seq<API.BoneData>, influencesPerVertex: nat, n: nat): (r: seq<VertInfluence>)
    requires n <= |boneData|
    ensures |r| <= n
    ensures forall k :: 0 <= k < |r| ==>
      r[k].weight >= MinimumInfluenceWeight && r[k].boneIndex != API.BoneIndexInvalid
  {
    if n == 0 then []
    else
      var b := boneData[n - 1];
      ExportedInfluences(boneData, influencesPerVertex, n - 1)
      + (if InfluenceKept(b) then [VertInfluence(SlotVertex(n - 1, influencesPerVertex), b.boneIndex, b.boneInfluence)] else [])
  }

  /** The influence loop of `SkeletalLODModelFromInstaLODMesh`: the kept
    * slots of every vertex, vertex after vertex; nothing when the mesh has
    * no skinning data. The loop reads `MaxTotalInfluences` slots per vertex
    * whatever the mesh was initialised with, so the mesh must carry that many
    * per vertex, as the import's `Initialize` gives it. */
  method ExportInfluences(data: API.SkinnedVertexData, initialized: bool) returns (influences: seq<VertInfluence>)
    requires API.SkinnedDataWellFormed(data)
    requires data.maximumInfluencesPerVertex == MaxTotalInfluences
    ensures !initialized ==> influences == []
    ensures initialized ==> influences == ExportedInfluences(data.boneData, data.maximumInfluencesPerVertex, |data.boneData|)
  {
    influences := [];
    if !initialized {
      return;
    }
    var m := MaxTotalInfluences;
    for vertexIndex := 0 to data.vertexCount
      invariant vertexIndex * m <= |data.boneData|
      invariant influences == ExportedInfluences(data.boneData, m, vertexIndex * m)
    {
      var first := vertexIndex * m;
      assert (vertexIndex + 1) * m == first + m;
      API.MulMonotone(vertexIndex + 1, data.vertexCount, m);
      for influenceIndex := 0 to MaxTotalInfluences
        invariant influences == ExportedInfluences(data.boneData, m, first + influenceIndex)
      {
        API.SlotBound(vertexIndex, influenceIndex, data.vertexCount, m);
        var b := data.boneData[first + influenceIndex];
        if b.boneInfluence <= 0.0 || b.boneIndex == API.BoneIndexInvalid {
          continue;
        }
        var influence := VertInfluence(vertexIndex, b.boneIndex, b.boneInfluence);
        if influence.weight < MinimumInfluenceWeight {
          continue;
        }
        influences := influences + [influence];
      }
    }
  }

  /** A slot imported from an engine weight comes back on export exactly
    * when its weight is set, its bone is valid and the weight is at least
    * 2/255: a weight of 1/255 is dropped. */
  lemma ImportedInfluenceKept(weight: byte, bone: nat, boneMap: seq<nat>)
    requires weight != 0 ==> bone < |boneMap|
    requires weight != 0 ==> boneMap[bone] != API.BoneIndexInvalid
    ensures InfluenceKept(ImportedBoneData(weight, bone, boneMap)) <==> weight >= 2
  {
  }

  // ---------------------------------------------------------------------
  // Texture page copies. Engine pages run top row first, SDK pages bottom
  // row first, so every copy mirrors the rows.

  /** Where pixel (`x`, `y`) of a `width` by `height` page comes from in
    * the mirrored page. */
  function FlippedIndex(x: nat, y: nat, width: nat, height: nat): (r: nat)
    requires x < width && y < height
    ensures r < width * height
    ensures r % width == x && r / width == height - 1 - y
  {
    API.SlotBound(height - 1 - y, x, height, width);
    x + width * (height - (y + 1))
  }

  /** The row index as the copies compute it, in 32-bit unsigned arithmetic
    * and with the page width where the height belongs. */
  function FlippedIndexAsWritten(x: nat, y: nat, width: nat, height: nat): (r: nat)
    ensures r < 0x1_0000_0000
  {
    API.UInt32(x + API.UInt32(width * API.UInt32(width - (y + 1))))
  }

  /** On a square page the index as written is the mirrored pixel. */
  lemma FlippedIndexAsWrittenOnSquarePages(x: nat, y: nat, width: nat)
    requires x < width && y < width && width * width < 0x1_0000_0000
    ensures FlippedIndexAsWritten(x, y, width, width) == FlippedIndex(x, y, width, width)
  {
    var r := FlippedIndex(x, y, width, width);
    assert width * (width - (y + 1)) <= r;
  }

  /** On a page wider than it is high the first pixel is read from past the
    * end of the page, and on a page higher than it is wide the row index
    * wraps around to the top of the 32-bit range. */
  lemma FlippedIndexAsWrittenLeavesPage()
    ensures FlippedIndexAsWritten(0, 0, 2, 1) == 2 && 2 >= 2 * 1
    ensures FlippedIndexAsWritten(0, 1, 1, 2) == 0xFFFF_FFFF && 0xFFFF_FFFF >= 1 * 2
  {
  }

  /** The row-major position `k` of a page, split into column and row. */
  lemma RowMajor(k: nat, width: nat, height: nat)
    requires k < width * height
    ensures width > 0 && k % width < width && k / width < height
    ensures k == k / width * width + k % width
  {
    if k / width >= height {
      API.MulMonotone(height, k / width, width);
    }
  }

  /** The pixel that position `k` of a mirrored page comes from. */
  function FlippedPixel(k: nat, width: nat, height: nat): (r: nat)
    requires k < width * height
    ensures r < width * height
  {
    RowMajor(k, width, height);
    FlippedIndex(k % width, k / width, width, height)
  }

  /** The page mirrored top to bottom. */
  function FlipVertically<T>(page: seq<T>, width: nat, height: nat): (r: seq<T>)
    requires |page| == width * height
    ensures |r| == width * height
    ensures forall k :: 0 <= k < width * height ==> r[k] == page[FlippedPixel(k, width, height)]
  {
    seq(width * height, k requires 0 <= k < width * height => page[FlippedPixel(k, width, height)])
  }

  /** Mirroring a pixel position twice gives it back. */
  lemma FlippedPixelInvolution(k: nat, width: nat, height: nat)
    requires k < width * height
    ensures FlippedPixel(FlippedPixel(k, width, height), width, height) == k
  {
    RowMajor(k, width, height);
    var f := FlippedPixel(k, width, height);
    assert f % width == k % width && f / width == height - 1 - k / width;
  }

  /** Mirroring a page twice gives it back: a page sent to the SDK with
    * `CopyColorArray` and read back with `CopyColorArray8` is the page that
    * was sent, whatever its shape. */
  lemma FlipVerticallyInvolution<T>(page: seq<T>, width: nat, height: nat)
    requires |page| == width * height
    ensures FlipVertically(FlipVertically(page, width, height), width, height) == page
  {
    var twice := FlipVertically(FlipVertically(page, width, height), width, height);
    forall k | 0 <= k < width * height
      ensures twice[k] == page[k]
    {
      FlippedPixelInvolution(k, width, height);
    }
  }

  /** One 16-bit channel scaled to 8 bits and clamped to [0, 255]. */
  function Channel16To8(v: uint16): (r: byte)
    ensures r as int == v as int * 255 / 65535
    ensures r == 0 <==> v < 257
    ensures r == 255 <==> v == 65535
  {
    var scaled := v as int * 255 / 65535;
    (if scaled < 0 then 0 else if scaled > 255 then 255 else scaled) as byte
  }

  /** A 16-bit SDK colour as an engine colour: every channel scaled, alpha
    * opaque. */
  function Color16To8(c: ColorRGB16): (r: Color)
    ensures r.a == 255
    ensures r.r == Channel16To8(c.r) && r.g == Channel16To8(c.g) && r.b == Channel16To8(c.b)
  {
    Color(Channel16To8(c.r), Channel16To8(c.g), Channel16To8(c.b), 255)
  }

  /** `CopyColorArray16`: a 16-bit SDK page as an engine page, mirrored and
    * with every colour converted. */
  method CopyColorArray16(input: seq<ColorRGB16>, width: nat, height: nat) returns (output: seq<Color>)
    requires |input| == width * height
    ensures |output| == width * height
    ensures forall k :: 0 <= k < width * height ==> output[k] == Color16To8(input[FlippedPixel(k, width, height)])
    ensures forall k :: 0 <= k < width * height ==> output[k].a == 255
  {
    output := [];
    for y := 0 to height
      invariant |output| == y * width
      invariant forall k :: 0 <= k < |output| ==> k < width * height && output[k] == Color16To8(input[FlippedPixel(k, width, height)])
    {
      assert (y + 1) * width == y * width + width;
      API.MulMonotone(y + 1, height, width);
      for x := 0 to width
        invariant |output| == y * width + x
        invariant forall k :: 0 <= k < |output| ==> k < width * height && output[k] == Color16To8(input[FlippedPixel(k, width, height)])
      {
        API.SlotBound(y, x, height, width);
        output := output + [Color16To8(input[FlippedIndex(x, y, width, height)])];
      }
    }
  }

  /** `CopyColorArray8`: an 8-bit SDK page as an engine page, mirrored. */
  method CopyColorArray8(input: seq<Color>, width: nat, height: nat) returns (output: seq<Color>)
    requires |input| == width * height
    ensures output == FlipVertically(input, width, height)
  {
    output := [];
    for y := 0 to height
      invariant |output| == y * width
      invariant forall k :: 0 <= k < |output| ==> k < width * height && output[k] == input[FlippedPixel(k, width, height)]
    {
      assert (y + 1) * width == y * width + width;
      API.MulMonotone(y + 1, height, width);
      for x := 0 to width
        invariant |output| == y * width + x
        invariant forall k :: 0 <= k < |output| ==> k < width * height && output[k] == input[FlippedPixel(k, width, height)]
      {
        API.SlotBound(y, x, height, width);
        output := output + [input[FlippedIndex(x, y, width, height)]];
      }
    }
    assert height * width == width * height;
  }

  /** `CopyColorArray`: an engine page written, mirrored, into an SDK page
    * buffer. */
  method CopyColorArray(output: array<Color>, input: seq<Color>, width: nat, height: nat)
    requires output.Length == width * height && |input| == width * height
    modifies output
    ensures output[..] == FlipVertically(input, width, height)
  {
    for y := 0 to height
      invariant y * width <= width * height
      invariant forall k :: 0 <= k < y * width ==> output[k] == input[FlippedPixel(k, width, height)]
    {
      assert (y + 1) * width == y * width + width;
      API.MulMonotone(y + 1, height, width);
      for x := 0 to width
        invariant forall k :: 0 <= k < y * width + x ==> output[k] == input[FlippedPixel(k, width, height)]
      {
        API.SlotBound(y, x, height, width);
        var index := x + y * width;
        output[index] := input[FlippedIndex(x, y, width, height)];
      }
    }
    assert height * width == width * height;
  }

  /** `SetColorArrayToConstant`: the page becomes a single texel of the
    * given colour. */
  method SetColorArrayToConstant(data: seq<Color>, value: Color) returns (output: seq<Color>)
    ensures output == [value]
  {
    output := if |data| >= 1 then data[..1] else [Color(0, 0, 0, 0)];
    for index := 0 to |output|
      invariant |output| == 1
      invariant forall i :: 0 <= i < index ==> output[i] == value
    {
      output := output[index := value];
    }
  }

  // ---------------------------------------------------------------------
  // Reduction settings

  /** The engine's importance levels (`EMeshFeatureImportance` and
    * `SkeletalMeshOptimizationImportance`) by their numeric value: Off,
    * Lowest, Low, Normal, High, Highest. */
  const EngineImportanceHigh: int := 4

  /** `GetInstaLODMeshFeatureImportance`: each engine level becomes the SDK
    * level of the same name; any other value becomes Normal. */
  function EngineImportance(value: int): (r: API.MeshFeatureImportance)
    ensures 0 <= value < 6 ==> API.ImportanceOrdinal(r) == value
    ensures !(0 <= value < 6) ==> r == API.Normal
  {
    if value == 0 then API.Off
    else if value == 1 then API.Lowest
    else if value == 2 then API.Low
    else if value == 3 then API.Normal
    else if value == 4 then API.High
    else if value == 5 then API.Highest
    else API.Normal
  }

  /** Distinct engine levels stay distinct. */
  lemma EngineImportanceInjective(a: int, b: int)
    requires 0 <= a < 6 && 0 <= b < 6 && EngineImportance(a) == EngineImportance(b)
    ensures a == b
  {
  }

  /** The console variables the conversions read; a flag is set when its
    * variable is positive. */
  datatype ConsoleVariables = ConsoleVariables(
    algorithmStrategy: API.AlgorithmStrategy,
    defaultMaximumError: real,
    lockSplits: int,
    lockBoundaries: int,
    weightedNormals: int,
    weldingProtectDistinctUVShells: int,
    optimalPlacement: int,
    forceOptimizerWeights: int,
    optimizeDeterministic: int)

  /** The engine's static mesh reduction settings; importances by value. */
  datatype MeshReductionSettings = MeshReductionSettings(
    percentTriangles: real,
    maxDeviation: real,
    weldingThreshold: real,
    hardAngleThreshold: real,
    shadingImportance: int,
    textureImportance: int,
    silhouetteImportance: int,
    recalculateNormals: bool)

  /** `ConvertMeshReductionSettingsToInstaLOD` for static meshes: a
    * non-positive maximum deviation falls back to the console default, and a
    * High silhouette importance is sent as Normal together with optimizer
    * vertex weights, which Highest also turns on. */
  function StaticMeshOptimizeSettings(s: MeshReductionSettings, cvars: ConsoleVariables): (r: API.OptimizeSettings)
    ensures r.percentTriangles == s.percentTriangles && r.screenSizeInPixels == 0
    ensures r.maxDeviation == if s.maxDeviation > 0.0 then s.maxDeviation else cvars.defaultMaximumError
    ensures s.silhouetteImportance == EngineImportanceHigh ==> r.silhouetteImportance == API.Normal
    ensures s.silhouetteImportance != EngineImportanceHigh ==> r.silhouetteImportance == EngineImportance(s.silhouetteImportance)
    ensures r.optimizerVertexWeights <==> cvars.forceOptimizerWeights > 0 || s.silhouetteImportance >= EngineImportanceHigh
    ensures r.shadingImportance == EngineImportance(s.shadingImportance) && r.textureImportance == EngineImportance(s.textureImportance)
    ensures r.skinningImportance == API.DefaultOptimizeSettings.skinningImportance
    ensures r.skeletonOptimize == API.DefaultOptimizeSettings.skeletonOptimize
  {
    API.DefaultOptimizeSettings.(
      screenSizeInPixels := 0,
      percentTriangles := s.percentTriangles,
      algorithmStrategy := cvars.algorithmStrategy,
      hardAngleThreshold := s.hardAngleThreshold,
      maxDeviation := if s.maxDeviation > 0.0 then s.maxDeviation else cvars.defaultMaximumError,
      shadingImportance := EngineImportance(s.shadingImportance),
      textureImportance := EngineImportance(s.textureImportance),
      silhouetteImportance :=
        EngineImportance(if s.silhouetteImportance == EngineImportanceHigh then 3 else s.silhouetteImportance),
      weldingThreshold := s.weldingThreshold,
      lockSplits := cvars.lockSplits > 0,
      lockBoundaries := cvars.lockBoundaries > 0,
      recalculateNormals := s.recalculateNormals,
      weightedNormals := cvars.weightedNormals > 0,
      weldingProtectDistinctUVShells := cvars.weldingProtectDistinctUVShells > 0,
      optimalPlacement := cvars.optimalPlacement > 0,
      optimizerVertexWeights := cvars.forceOptimizerWeights > 0 || s.silhouetteImportance >= EngineImportanceHigh,
      deterministic := cvars.optimizeDeterministic > 0)
  }

  /** High and Normal silhouette importance send the same silhouette level;
    * High is told apart only by the optimizer vertex weights. */
  lemma SilhouetteHighSentAsNormal(s: MeshReductionSettings, cvars: ConsoleVariables)
    requires s.silhouetteImportance == EngineImportanceHigh
    ensures StaticMeshOptimizeSettings(s, cvars).silhouetteImportance
         == StaticMeshOptimizeSettings(s.(silhouetteImportance := 3), cvars).silhouetteImportance
    ensures StaticMeshOptimizeSettings(s, cvars).optimizerVertexWeights
    ensures cvars.forceOptimizerWeights <= 0 ==> !StaticMeshOptimizeSettings(s.(silhouetteImportance := 3), cvars).optimizerVertexWeights
  {
  }

  datatype SkeletalReductionMethod = NumOfTriangles | MaxDeviation | TriangleOrDeviation

  /** The engine's skeletal mesh optimisation settings; importances by
    * value. */
  datatype SkeletalOptimizationSettings = SkeletalOptimizationSettings(
    reductionMethod: SkeletalReductionMethod,
    numOfTrianglesPercentage: real,
    maxDeviationPercentage: real,
    weldingThreshold: real,
    normalsThreshold: real,
    maxBonesPerVertex: int,
    shadingImportance: int,
    textureImportance: int,
    silhouetteImportance: int,
    skinningImportance: int,
    recalcNormals: bool)

  /** `ConvertMeshReductionSettingsToInstaLOD` for skeletal meshes: the
    * maximum deviation method sends no triangle percentage and the given
    * deviation, every other method the percentage and the console's default
    * deviation; influences below 1/250 are dropped by the SDK. */
  function SkeletalMeshOptimizeSettings(s: SkeletalOptimizationSettings, cvars: ConsoleVariables): (r: API.OptimizeSettings)
    ensures s.reductionMethod == MaxDeviation ==> r.percentTriangles == 0.0 && r.maxDeviation == s.maxDeviationPercentage
    ensures s.reductionMethod != MaxDeviation ==>
      r.percentTriangles == s.numOfTrianglesPercentage && r.maxDeviation == cvars.defaultMaximumError
    ensures r.skeletonOptimize.minimumBoneInfluenceThreshold == MinimumInfluenceWeight
    ensures r.skeletonOptimize.maximumBoneInfluencesPerVertex == API.UInt32(s.maxBonesPerVertex)
    ensures r.skinningImportance == EngineImportance(s.skinningImportance)
    ensures s.silhouetteImportance == EngineImportanceHigh ==> r.silhouetteImportance == API.Normal
    ensures r.optimizerVertexWeights <==> cvars.forceOptimizerWeights > 0 || s.silhouetteImportance >= EngineImportanceHigh
  {
    var deviationMethod := s.reductionMethod == MaxDeviation;
    API.DefaultOptimizeSettings.(
      skinningImportance := EngineImportance(s.skinningImportance),
      skeletonOptimize := API.DefaultOptimizeSettings.skeletonOptimize.(
        minimumBoneInfluenceThreshold := 1.0 / 250.0,
        maximumBoneInfluencesPerVertex := API.UInt32(s.maxBonesPerVertex)),
      screenSizeInPixels := 0,
      percentTriangles := if deviationMethod then 0.0 else s.numOfTrianglesPercentage,
      algorithmStrategy := cvars.algorithmStrategy,
      hardAngleThreshold := s.normalsThreshold,
      maxDeviation := if deviationMethod then s.maxDeviationPercentage else cvars.defaultMaximumError,
      shadingImportance := EngineImportance(s.shadingImportance),
      textureImportance := EngineImportance(s.textureImportance),
      silhouetteImportance :=
        EngineImportance(if s.silhouetteImportance == EngineImportanceHigh then 3 else s.silhouetteImportance),
      weldingThreshold := s.weldingThreshold,
      lockSplits := cvars.lockSplits > 0,
      lockBoundaries := cvars.lockBoundaries > 0,
      recalculateNormals := s.recalcNormals,
      weightedNormals := cvars.weightedNormals > 0,
      weldingProtectDistinctUVShells := cvars.weldingProtectDistinctUVShells > 0,
      optimalPlacement := cvars.optimalPlacement > 0,
      optimizerVertexWeights := cvars.forceOptimizerWeights > 0 || s.silhouetteImportance >= EngineImportanceHigh,
      deterministic := cvars.optimizeDeterministic > 0)
  }

  /** The threshold the skeletal settings give the SDK is the one the export
    * filter applies: an influence the SDK keeps is handed back. */
  lemma SkeletalThresholdMatchesExportFilter(s: SkeletalOptimizationSettings, cvars: ConsoleVariables, b: API.BoneData)
    requires b.boneIndex != API.BoneIndexInvalid
    requires b.boneInfluence >= SkeletalMeshOptimizeSettings(s, cvars).skeletonOptimize.minimumBoneInfluenceThreshold
    ensures InfluenceKept(b)
  {
  }

  // ---------------------------------------------------------------------
  // Output texture sizes

  /** The texture pages whose output size the conversion sets. */
  datatype MaterialPage =
    | DiffusePage | NormalPage | RoughnessPage | MetallicPage | SpecularPage
    | EmissivePage | OpacityPage | OpacityMaskPage | AmbientOcclusionPage | NormalTangentSpacePage

  /** The output size of a page under automatic biased sizing, from the
    * texture size's x extent: normals keep the full size, diffuse half of it
    * but at least 32, every other property page a quarter but at least 16.
    * The halving and quartering are arithmetic right shifts. */
  function BiasedPageSize(page: MaterialPage, textureSize: int): (r: int)
    ensures page == NormalPage || page == NormalTangentSpacePage ==> r == textureSize
    ensures page == DiffusePage ==> r >= 32 && (textureSize >= 64 ==> r * 2 <= textureSize < r * 2 + 2)
    ensures page != NormalPage && page != NormalTangentSpacePage && page != DiffusePage ==>
      r >= 16 && (textureSize >= 64 ==> r * 4 <= textureSize < r * 4 + 4)
  {
    var diffuseSize := if textureSize / 2 > 32 then textureSize / 2 else 32;
    var propertiesSize := if textureSize / 4 > 16 then textureSize / 4 else 16;
    match page
    case NormalPage => textureSize
    case NormalTangentSpacePage => textureSize
    case DiffusePage => diffuseSize
    case _ => propertiesSize
  }

  /** Below 64 pixels the lower bounds take over; from 64 pixels on no page
    * is larger than the normal page, and property pages are no larger than
    * the diffuse page. */
  lemma BiasedPageSizesOrdered(page: MaterialPage, textureSize: int)
    ensures textureSize < 64 && page == DiffusePage ==> BiasedPageSize(page, textureSize) == 32
    ensures textureSize < 64 && page != DiffusePage && page != NormalPage && page != NormalTangentSpacePage ==>
      BiasedPageSize(page, textureSize) == 16
    ensures textureSize >= 64 ==>
      BiasedPageSize(page, textureSize) <= textureSize
      && (page != NormalPage && page != NormalTangentSpacePage ==> BiasedPageSize(page, textureSize) <= BiasedPageSize(DiffusePage, textureSize))
  {
  }
}
