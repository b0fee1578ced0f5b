/** The script wrapper's helpers: validating a script entry, correcting the
  * base and target LOD indices a script asks for, splitting a mesh into
  * its polygonal and billboard parts for a hybrid billboard cloud, and the
  * operation that runs a callback over every entry.
  */
module InstaLODScriptWrapper {
  import opened Wrappers
  import UEString
  import Imp = InstaLODImposterizeTool
  import Util = InstaLODUtilities

  /** An entry of a script: a static mesh with its number of source models,
    * a skeletal mesh with its number of LOD infos, or an object of another
    * type. */
  datatype ScriptEntry =
    | StaticMeshEntry(numSourceModels: nat)
    | SkeletalMeshEntry(numLODInfos: nat)
    | OtherEntry

  /** `IsEntryValid`: not null, and a static or a skeletal mesh. */
  predicate IsEntryValid(entry: Option<ScriptEntry>) {
    match entry
    case None => false
    case Some(e) => !e.OtherEntry?
  }

  /** The kind `FinalizeScriptProcessResult` sees for an entry. */
  function EntryKindOf(e: ScriptEntry): Util.EntryKind {
    match e
    case StaticMeshEntry(_) => Util.StaticMeshEntry
    case SkeletalMeshEntry(_) => Util.SkeletalMeshEntry
    case OtherEntry => Util.OtherEntry
  }

  /** A valid entry is one `FinalizeScriptProcessResult` accepts, and
    * conversely. */
  lemma ValidEntriesAreFinalizable(entry: Option<ScriptEntry>)
    ensures IsEntryValid(entry) <==> entry.Some? && EntryKindOf(entry.value) != Util.OtherEntry
  {
  }

  // ---------------------------------------------------------------------
  // Base and target LOD indices

  /** The base LOD index must name an existing LOD: a source model of a
    * static mesh, a LOD info of a skeletal mesh. */
  predicate BaseLODIndexAccepted(e: ScriptEntry, base: int)
    requires !e.OtherEntry?
  {
    match e
    case StaticMeshEntry(n) => 0 <= base < n
    case SkeletalMeshEntry(m) => 0 <= base <= m - 1
  }

  /** A static mesh's target must be an existing LOD other than 0, or one
    * past the last; a skeletal mesh's target must not be an existing
    * LOD. */
  predicate TargetLODIndexAccepted(e: ScriptEntry, target: int)
    requires !e.OtherEntry?
  {
    match e
    case StaticMeshEntry(n) => 1 <= target <= n
    case SkeletalMeshEntry(m) => target >= m
  }

  /** The number of LODs of an entry. */
  function LODCount(e: ScriptEntry): nat
    requires !e.OtherEntry?
  {
    match e
    case StaticMeshEntry(n) => n
    case SkeletalMeshEntry(m) => m
  }

  /** The indices after correction: a base index that is not accepted
    * becomes 0, a target that is not accepted becomes the number of LODs
    * (append at the end). */
  function CorrectedLODIndices(e: ScriptEntry, base: int, target: int): (r: (int, int))
    requires !e.OtherEntry?
    ensures r.0 == if BaseLODIndexAccepted(e, base) then base else 0
    ensures r.1 == if TargetLODIndexAccepted(e, target) then target else LODCount(e)
  {
    (if BaseLODIndexAccepted(e, base) then base else 0,
     if TargetLODIndexAccepted(e, target) then target else LODCount(e))
  }

  /** Correction settles: corrected indices are corrected to themselves, and
    * they are accepted exactly when the entry has a LOD. */
  lemma CorrectedLODIndicesSettle(e: ScriptEntry, base: int, target: int)
    requires !e.OtherEntry?
    ensures var r := CorrectedLODIndices(e, base, target);
      && CorrectedLODIndices(e, r.0, r.1) == r
      && (BaseLODIndexAccepted(e, r.0) && TargetLODIndexAccepted(e, r.1) <==> LODCount(e) >= 1)
  {
  }

  /** `EvaluateResultBaseAndTargetLODIndex`: corrects the two by-reference
    * indices and answers whether neither needed correcting. An entry of
    * another type is refused and changes nothing. */
  method EvaluateResultBaseAndTargetLODIndex(entry: ScriptEntry, baseLODIndex: int, targetLODIndex: int)
    returns (ok: bool, newBase: int, newTarget: int)
    ensures entry.OtherEntry? ==> !ok && newBase == baseLODIndex && newTarget == targetLODIndex
    ensures !entry.OtherEntry? ==> (newBase, newTarget) == CorrectedLODIndices(entry, baseLODIndex, targetLODIndex)
    ensures ok <==> (!entry.OtherEntry? && BaseLODIndexAccepted(entry, baseLODIndex)
                     && TargetLODIndexAccepted(entry, targetLODIndex))
  {
    newBase, newTarget := baseLODIndex, targetLODIndex;
    var hasWrongSpecification := false;
    match entry {
      case StaticMeshEntry(n) =>
        if baseLODIndex < 0 || baseLODIndex >= n {
          newBase := 0;
          hasWrongSpecification := true;
        }
        // LOD 0 is never a target.
        if targetLODIndex < 1 || targetLODIndex > n {
          newTarget := n;
          hasWrongSpecification := true;
        }
      case SkeletalMeshEntry(m) =>
        if baseLODIndex < 0 || baseLODIndex > m - 1 {
          newBase := 0;
          hasWrongSpecification := true;
        }
        if targetLODIndex < m {
          newTarget := m;
          hasWrongSpecification := true;
        }
      case OtherEntry =>
        return false, baseLODIndex, targetLODIndex;
    }
    ok := !hasWrongSpecification;
  }

  /** A corrected target of a skeletal mesh whose LOD models all have LOD
    * infos appends a new LOD model when the LOD is inserted. */
  lemma CorrectedSkeletalTargetAppends(numLODModels: nat, numLODInfos: nat, base: int, target: int)
    requires numLODModels <= numLODInfos
    ensures var t := CorrectedLODIndices(SkeletalMeshEntry(numLODInfos), base, target).1;
      Util.SkeletalTargetLODIndex(t, numLODModels) == numLODModels
  {
  }

  // ---------------------------------------------------------------------
  // The billboard cloud split

  /** `GenerateCloudPolygonalMesh`: without the mesh, the cloud mesh or the
    * SDK it fails; with an empty suffix it succeeds and changes nothing.
    * Otherwise the materials are sorted by whether their name ends with the
    * suffix; when some do, their faces are appended to the cloud mesh, and
    * the mesh is left with the faces of the other materials. */
  method GenerateCloudPolygonalMesh(mesh: Imp.FaceMesh?, cloudPolyMesh: Imp.FaceMesh?, instaLODAvailable: bool,
                                    materialNames: seq<string>, suffix: string)
    returns (ok: bool)
    requires mesh != null && suffix != [] ==> Imp.MaterialsInRange(mesh.faces, |materialNames|)
    requires mesh == null || mesh != cloudPolyMesh
    modifies mesh, cloudPolyMesh
    ensures ok <==> mesh != null && cloudPolyMesh != null && instaLODAvailable
    ensures mesh != null && cloudPolyMesh != null && (!ok || suffix == [] ||
              |Imp.Sections(old(mesh.faces), materialNames, suffix, true)| == 0) ==>
      mesh.faces == old(mesh.faces) && cloudPolyMesh.faces == old(cloudPolyMesh.faces)
    ensures ok && suffix != [] && |Imp.Sections(old(mesh.faces), materialNames, suffix, true)| > 0 ==>
      && cloudPolyMesh.faces == old(cloudPolyMesh.faces)
           + Imp.FacesOfSections(old(mesh.faces), Imp.Sections(old(mesh.faces), materialNames, suffix, true))
      && mesh.faces == Imp.FacesOfSections(old(mesh.faces), Imp.Sections(old(mesh.faces), materialNames, suffix, false))
  {
    if mesh == null || !instaLODAvailable || cloudPolyMesh == null {
      return false;
    }
    // An empty suffix leaves the cloud mesh empty.
    if suffix == [] {
      return true;
    }
    var faces := mesh.faces;
    var cloudPolySections, billboardSections := Imp.CollectSections(faces, materialNames, suffix);
    if |cloudPolySections| > 0 {
      var cloudFaces := Imp.ExtractSections(faces, cloudPolySections);
      cloudPolyMesh.faces := cloudPolyMesh.faces + cloudFaces;
      var billboardFaces := Imp.ExtractSections(faces, billboardSections);
      mesh.faces := billboardFaces;
    }
    return true;
  }

  /** The split loses no face and invents none, and puts each face on the
    * side its material's name says. */
  lemma CloudSplitPartitionsFaces(faces: seq<Imp.MeshFace>, materialNames: seq<string>, suffix: string)
    requires Imp.MaterialsInRange(faces, |materialNames|)
    ensures var cloud := Imp.FacesOfSections(faces, Imp.Sections(faces, materialNames, suffix, true));
      var billboard := Imp.FacesOfSections(faces, Imp.Sections(faces, materialNames, suffix, false));
      && multiset(cloud + billboard) == multiset(faces)
      && (forall k :: 0 <= k < |cloud| ==> UEString.EndsWith(materialNames[cloud[k].materialIndex], suffix))
      && (forall k :: 0 <= k < |billboard| ==> !UEString.EndsWith(materialNames[billboard[k].materialIndex], suffix))
  {
    Imp.SplitKeepsFaces(faces, materialNames, suffix);
    Imp.SplitSeparatesByName(faces, materialNames, suffix, true);
    Imp.SplitSeparatesByName(faces, materialNames, suffix, false);
  }

  // ---------------------------------------------------------------------
  // Running an operation over the entries

  /** What a callback adds to a script's results: a finalized object, or a
    * null for an entry whose operation failed. */
  datatype ResultObject = NullObject | Finalized(obj: Util.OutputObject)

  /** `UInstaLODScriptResult`: the objects a script returns. */
  class ScriptResult {
    var outResults: seq<ResultObject>

    constructor()
      ensures outResults == []
    {
      outResults := [];
    }
  }

  /** The indices the operation carries from entry to entry, and what the
    * callbacks have added to the results so far. */
  datatype RunState = RunState(baseLODIndex: int, targetLODIndex: int, results: seq<ResultObject>)

  /** The state after the first `k` entries: an invalid entry is skipped;
    * for a valid one the indices are corrected (and stay corrected for the
    * entries after it) and the callback's objects are added. */
  function RunEntries(entries: seq<Option<ScriptEntry>>, k: nat, start: RunState,
                      callback: (ScriptEntry, int, int) -> seq<ResultObject>): RunState
    requires k <= |entries|
  {
    if k == 0 then start
    else
      var s := RunEntries(entries, k - 1, start, callback);
      var entry := entries[k - 1];
      if !IsEntryValid(entry) then s
      else
        var r := CorrectedLODIndices(entry.value, s.baseLODIndex, s.targetLODIndex);
        RunState(r.0, r.1, s.results + callback(entry.value, r.0, r.1))
  }

  /** The results of a run are the results it started with, followed by what
    * the callbacks added for the valid entries, in order. */
  lemma {:induction false} RunEntriesExtendsResults(entries: seq<Option<ScriptEntry>>, k: nat, start: RunState,
                                                    callback: (ScriptEntry, int, int) -> seq<ResultObject>)
    requires k <= |entries|
    ensures var s := RunEntries(entries, k, start, callback);
      && start.results <= s.results
      && ((forall i :: 0 <= i < k ==> !IsEntryValid(entries[i])) ==> s == start)
  {
    if k > 0 {
      RunEntriesExtendsResults(entries, k - 1, start, callback);
    }
  }

  /** After a valid entry with at least one LOD, the indices the operation
    * carries are accepted by that entry. */
  lemma RunEntriesSettlesIndices(entries: seq<Option<ScriptEntry>>, k: nat, start: RunState,
                                 callback: (ScriptEntry, int, int) -> seq<ResultObject>)
    requires 0 < k <= |entries| && IsEntryValid(entries[k - 1]) && LODCount(entries[k - 1].value) >= 1
    ensures var s := RunEntries(entries, k, start, callback);
      BaseLODIndexAccepted(entries[k - 1].value, s.baseLODIndex)
      && TargetLODIndexAccepted(entries[k - 1].value, s.targetLODIndex)
  {
    var s := RunEntries(entries, k - 1, start, callback);
    CorrectedLODIndicesSettle(entries[k - 1].value, s.baseLODIndex, s.targetLODIndex);
  }

  /** `InstaLODScriptOperation`: the entries, the base LOD index it carries,
    * and the target LOD index of its result settings. */
  class ScriptOperation {
    const entries: seq<Option<ScriptEntry>>
    var baseLODIndex: int
    var targetLODIndex: int

    constructor(entries: seq<Option<ScriptEntry>>, baseLODIndex: int, targetLODIndex: int)
      ensures this.entries == entries && this.baseLODIndex == baseLODIndex && this.targetLODIndex == targetLODIndex
    {
      this.entries := entries;
      this.baseLODIndex := baseLODIndex;
      this.targetLODIndex := targetLODIndex;
    }

    /** `Execute` as written: the callback runs for every valid entry with
      * the corrected indices and adds to the script's results, and then the
      * results are overwritten with a local array nothing has added to. */
    method ExecuteAsWritten(result: ScriptResult, callback: (ScriptEntry, int, int) -> seq<ResultObject>)
      returns (ok: bool)
      modifies this, result
      ensures ok
      ensures var s := RunEntries(entries, |entries|,
                                  RunState(old(baseLODIndex), old(targetLODIndex), old(result.outResults)), callback);
        baseLODIndex == s.baseLODIndex && targetLODIndex == s.targetLODIndex
      ensures result.outResults == []
    {
      var outputArray: seq<ResultObject> := [];
      RunAll(result, callback);
      result.outResults := outputArray;
      return true;
    }

    /** `Execute` keeping what the callbacks added: the script's results are
      * its earlier results followed by the callbacks' objects for the valid
      * entries. */
    method Execute(result: ScriptResult, callback: (ScriptEntry, int, int) -> seq<ResultObject>)
      returns (ok: bool)
      modifies this, result
      ensures ok
      ensures var s := RunEntries(entries, |entries|,
                                  RunState(old(baseLODIndex), old(targetLODIndex), old(result.outResults)), callback);
        baseLODIndex == s.baseLODIndex && targetLODIndex == s.targetLODIndex && result.outResults == s.results
    {
      RunAll(result, callback);
      return true;
    }

    /** The loop over the entries both versions share. */
    method RunAll(result: ScriptResult, callback: (ScriptEntry, int, int) -> seq<ResultObject>)
      modifies this, result
      ensures var s := RunEntries(entries, |entries|,
                                  RunState(old(baseLODIndex), old(targetLODIndex), old(result.outResults)), callback);
        baseLODIndex == s.baseLODIndex && targetLODIndex == s.targetLODIndex && result.outResults == s.results
    {
      ghost var start := RunState(baseLODIndex, targetLODIndex, result.outResults);
      for i := 0 to |entries|
        invariant RunState(baseLODIndex, targetLODIndex, result.outResults) == RunEntries(entries, i, start, callback)
      {
        var entry := entries[i];
        if !IsEntryValid(entry) {
          continue;
        }
        var _, newBase, newTarget := EvaluateResultBaseAndTargetLODIndex(entry.value, baseLODIndex, targetLODIndex);
        baseLODIndex, targetLODIndex := newBase, newTarget;
        result.outResults := result.outResults + callback(entry.value, baseLODIndex, targetLODIndex);
      }
    }
  }

  /** A single valid static mesh whose operation fails adds a null to the
    * results, which the operation as written then discards. */
  lemma ExecuteAsWrittenDropsResults()
    ensures var callback := (e: ScriptEntry, b: int, t: int) => [NullObject];
      RunEntries([Some(StaticMeshEntry(1))], 1, RunState(0, 1, []), callback).results == [NullObject]
  {
  }

  /** The same run through both versions of `Execute`: the callback adds a
    * null for the one valid static mesh, the operation as written hands back
    * no results, and the corrected one hands back that null. */
  method ExecuteDropsCallbackResults() returns (asWritten: seq<ResultObject>, corrected: seq<ResultObject>)
    ensures asWritten == [] && corrected == [NullObject]
  {
    var callback := (e: ScriptEntry, b: int, t: int) => [NullObject];
    var entries := [Some(StaticMeshEntry(1))];
    ExecuteAsWrittenDropsResults();
    var result := new ScriptResult();
    var operation := new ScriptOperation(entries, 0, 1);
    var ok := operation.ExecuteAsWritten(result, callback);
    asWritten := result.outResults;
    result := new ScriptResult();
    operation := new ScriptOperation(entries, 0, 1);
    ok := operation.Execute(result, callback);
    corrected := result.outResults;
  }
}
