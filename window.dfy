/** The plugin window's view of the editor selection (`SInstaLODWindow`): the
  * selected components, the selected objects, the registered tools and the
  * index of the tool whose tab is active. Only the queries the tools ask and
  * the tab switch are modelled; building the Slate widgets is not.
  */
module InstaLODWindow {
  import opened Wrappers
  import opened InstaLODTypes

  /** An object of the editor selection: an actor, which may or may not be a
    * static mesh actor, or any other kind of object. */
  datatype SelectedObject =
    | ActorObject(id: nat, isStaticMeshActor: bool)
    | OtherObject(id: nat)

  /** The components of `s` that satisfy `p`, in their original order. */
  function Filter(s: seq<MeshComponent>, p: MeshComponent -> bool): (r: seq<MeshComponent>)
    ensures |r| <= |s|
    ensures forall i :: 0 <= i < |r| ==> p(r[i])
    ensures forall c :: c in r <==> c in s && p(c)
    decreases |s|
  {
    if |s| == 0 then []
    else
      var front := Filter(s[..|s| - 1], p);
      assert s == s[..|s| - 1] + [s[|s| - 1]];
      if p(s[|s| - 1]) then front + [s[|s| - 1]] else front
  }

  /** Filtering one more element of `s` keeps it exactly when it satisfies
    * `p`. */
  lemma FilterPrefix(s: seq<MeshComponent>, i: nat, p: MeshComponent -> bool)
    requires i < |s|
    ensures Filter(s[..i + 1], p) == if p(s[i]) then Filter(s[..i], p) + [s[i]] else Filter(s[..i], p)
  {
    assert s[..i + 1][..i] == s[..i];
  }

  predicate IncludedCamera(c: MeshComponent) {
    c.shouldBeIncluded && c.cameraComponent.Some?
  }

  predicate IncludedStaticMesh(c: MeshComponent) {
    c.shouldBeIncluded && c.staticMeshComponent.Some?
  }

  predicate IncludedSkeletalMesh(c: MeshComponent) {
    c.shouldBeIncluded && c.skeletalMeshComponent.Some?
  }

  /** An included entry with a static or a skeletal mesh component, where each
    * component present has its mesh asset. */
  predicate EnabledMesh(c: MeshComponent) {
    && c.shouldBeIncluded
    && (c.staticMeshComponent.Some? || c.skeletalMeshComponent.Some?)
    && (c.staticMeshComponent.Some? ==> c.staticMeshComponent.value.staticMesh.Some?)
    && (c.skeletalMeshComponent.Some? ==> c.skeletalMeshComponent.value.skeletalMeshAsset.Some?)
  }

  /** An enabled mesh entry stands for a mesh asset. */
  lemma EnabledMeshHasAsset(c: MeshComponent)
    requires EnabledMesh(c)
    ensures MeshAsset(c).Some?
  {
  }

  predicate NoDuplicates<T(==)>(s: seq<T>) {
    forall i, j :: 0 <= i < j < |s| ==> s[i] != s[j]
  }

  class Window {
    var selectedComponents: seq<MeshComponent>
    var selectedObjects: seq<SelectedObject>
    var registeredToolCount: nat
    var currentTool: int

    constructor(components: seq<MeshComponent>, objects: seq<SelectedObject>, toolCount: nat)
      ensures selectedComponents == components && selectedObjects == objects
      ensures registeredToolCount == toolCount && currentTool == 0
    {
      selectedComponents := components;
      selectedObjects := objects;
      registeredToolCount := toolCount;
      currentTool := 0;
    }

    /** Counts the included entries with the component `p` asks for. */
    method CountIncluded(p: MeshComponent -> bool) returns (count: nat)
      ensures count == |Filter(selectedComponents, p)|
      ensures count <= |selectedComponents|
    {
      var comps := selectedComponents;
      count := 0;
      for i := 0 to |comps|
        invariant count == |Filter(comps[..i], p)|
      {
        FilterPrefix(comps, i, p);
        if p(comps[i]) {
          count := count + 1;
        }
      }
      assert comps[..|comps|] == comps;
    }

    method GetNumCameraComponents() returns (count: nat)
      ensures count == |Filter(selectedComponents, IncludedCamera)|
      ensures count <= |selectedComponents|
    {
      count := CountIncluded(IncludedCamera);
    }

    method GetNumStaticMeshsComponents() returns (count: nat)
      ensures count == |Filter(selectedComponents, IncludedStaticMesh)|
      ensures count <= |selectedComponents|
    {
      count := CountIncluded(IncludedStaticMesh);
    }

    method GetNumSkeletalMeshComponents() returns (count: nat)
      ensures count == |Filter(selectedComponents, IncludedSkeletalMesh)|
      ensures count <= |selectedComponents|
    {
      count := CountIncluded(IncludedSkeletalMesh);
    }

    /** The included camera entries, in selection order. */
    method GetEnabledSelectedCameraComponents() returns (cameras: seq<MeshComponent>)
      ensures cameras == Filter(selectedComponents, IncludedCamera)
      ensures forall c :: c in cameras <==> c in selectedComponents && IncludedCamera(c)
    {
      var comps := selectedComponents;
      cameras := [];
      for i := 0 to |comps|
        invariant cameras == Filter(comps[..i], IncludedCamera)
      {
        var c := comps[i];
        FilterPrefix(comps, i, IncludedCamera);
        if !c.shouldBeIncluded {
          continue;
        }
        if c.cameraComponent.None? {
          continue;
        }
        cameras := cameras + [c];
      }
      assert comps[..|comps|] == comps;
    }

    /** The included entries that carry a static or skeletal mesh with its
      * asset, in selection order. */
    method GetEnabledSelectedMeshComponents() returns (meshes: seq<MeshComponent>)
      ensures meshes == Filter(selectedComponents, EnabledMesh)
      ensures forall c :: c in meshes <==> c in selectedComponents && EnabledMesh(c)
    {
      var comps := selectedComponents;
      meshes := [];
      for i := 0 to |comps|
        invariant meshes == Filter(comps[..i], EnabledMesh)
      {
        var c := comps[i];
        FilterPrefix(comps, i, EnabledMesh);
        if !c.shouldBeIncluded {
          continue;
        }
        if c.staticMeshComponent.None? && c.skeletalMeshComponent.None? {
          continue;
        }
        if c.staticMeshComponent.Some? && c.staticMeshComponent.value.staticMesh.None? {
          continue;
        }
        if c.skeletalMeshComponent.Some? && c.skeletalMeshComponent.value.skeletalMeshAsset.None? {
          continue;
        }
        meshes := meshes + [c];
      }
      assert comps[..|comps|] == comps;
    }

    /** The selected static mesh actors, each once (`AddUnique`). */
    method GetSelectedStaticMeshActors() returns (actors: seq<nat>)
      ensures NoDuplicates(actors)
      ensures forall a :: a in actors <==> ActorObject(a, true) in selectedObjects
    {
      actors := [];
      for i := 0 to |selectedObjects|
        invariant NoDuplicates(actors)
        invariant forall a :: a in actors <==> ActorObject(a, true) in selectedObjects[..i]
      {
        assert selectedObjects[..i + 1] == selectedObjects[..i] + [selectedObjects[i]];
        var o := selectedObjects[i];
        if !o.ActorObject? {
          continue;
        }
        if !o.isStaticMeshActor {
          continue;
        }
        if o.id !in actors {
          actors := actors + [o.id];
        }
      }
      assert selectedObjects[..|selectedObjects|] == selectedObjects;
    }

    /** Switches to the tab of a registered tool; any other index is ignored. */
    method SetCurrentActiveTabIndex(tabIndex: int)
      modifies this
      ensures 0 <= tabIndex < registeredToolCount ==> currentTool == tabIndex
      ensures !(0 <= tabIndex < registeredToolCount) ==> currentTool == old(currentTool)
      ensures selectedComponents == old(selectedComponents) && selectedObjects == old(selectedObjects)
      ensures registeredToolCount == old(registeredToolCount)
    {
      if !(0 <= tabIndex < registeredToolCount) {
        return;
      }
      currentTool := tabIndex;
    }
  }
}
