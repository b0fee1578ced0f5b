/** The selection entry the plugin's window and tools pass around: a union of
  * a static mesh component, a skeletal mesh component or a camera component,
  * plus the user's "include in the operation" check box.
  *
  * The three engine pointers are weak: a pointer to an object that no longer
  * lives reads as null, so each slot is an `Option` whose `None` stands for
  * both a null and a stale pointer. Objects are told apart by an identity
  * number, which is what pointer equality compares in the engine.
  */
module InstaLODTypes {
  import opened Wrappers

  /** A mesh asset (`UStaticMesh` or `USkeletalMesh`): its object identity, the
    * name of the package it lives in, and whether a LOD group is assigned. */
  datatype Asset = Asset(id: nat, packageName: string, hasLODGroup: bool)

  datatype StaticMeshComponent = StaticMeshComponent(id: nat, staticMesh: Option<Asset>)
  datatype SkeletalMeshComponent = SkeletalMeshComponent(id: nat, skeletalMeshAsset: Option<Asset>)
  datatype CameraComponent = CameraComponent(id: nat)

  /** What `GetComponent` returns: one of the three, seen as a scene component. */
  datatype SceneComponent =
    | StaticScene(staticComponent: StaticMeshComponent)
    | SkeletalScene(skeletalComponent: SkeletalMeshComponent)
    | CameraScene(cameraComponent: CameraComponent)

  datatype MeshComponent = MeshComponent(
    staticMeshComponent: Option<StaticMeshComponent>,
    skeletalMeshComponent: Option<SkeletalMeshComponent>,
    cameraComponent: Option<CameraComponent>,
    shouldBeIncluded: bool)

  /** The three constructors: each stores its one pointer, leaves the other two
    * null and includes the entry. */
  function FromStaticMeshComponent(c: Option<StaticMeshComponent>): (r: MeshComponent)
    ensures r.staticMeshComponent == c && r.shouldBeIncluded
    ensures r.skeletalMeshComponent.None? && r.cameraComponent.None?
  {
    MeshComponent(c, None, None, true)
  }

  function FromSkeletalMeshComponent(c: Option<SkeletalMeshComponent>): (r: MeshComponent)
    ensures r.skeletalMeshComponent == c && r.shouldBeIncluded
    ensures r.staticMeshComponent.None? && r.cameraComponent.None?
  {
    MeshComponent(None, c, None, true)
  }

  function FromCameraComponent(c: Option<CameraComponent>): (r: MeshComponent)
    ensures r.cameraComponent == c && r.shouldBeIncluded
    ensures r.staticMeshComponent.None? && r.skeletalMeshComponent.None?
  {
    MeshComponent(None, None, c, true)
  }

  /** `GetComponent`, both the const and the non-const overload (their bodies
    * are the same): the static mesh component if it is live, otherwise the
    * skeletal one, otherwise the camera, otherwise null. */
  function GetComponent(m: MeshComponent): (r: Option<SceneComponent>)
    ensures m.staticMeshComponent.Some? ==> r == Some(StaticScene(m.staticMeshComponent.value))
    ensures m.staticMeshComponent.None? && m.skeletalMeshComponent.Some? ==>
      r == Some(SkeletalScene(m.skeletalMeshComponent.value))
    ensures m.staticMeshComponent.None? && m.skeletalMeshComponent.None? && m.cameraComponent.Some? ==>
      r == Some(CameraScene(m.cameraComponent.value))
    ensures r.None? <==>
      m.staticMeshComponent.None? && m.skeletalMeshComponent.None? && m.cameraComponent.None?
  {
    if m.staticMeshComponent.Some? then Some(StaticScene(m.staticMeshComponent.value))
    else if m.skeletalMeshComponent.Some? then Some(SkeletalScene(m.skeletalMeshComponent.value))
    else if m.cameraComponent.Some? then Some(CameraScene(m.cameraComponent.value))
    else None
  }

  predicate IsValid(m: MeshComponent) {
    GetComponent(m) != None
  }

  /** An entry built from a live pointer is valid and gives that very pointer
    * back; one built from a null pointer is not valid. */
  lemma ConstructedComponent(s: Option<StaticMeshComponent>, k: Option<SkeletalMeshComponent>, c: Option<CameraComponent>)
    ensures IsValid(FromStaticMeshComponent(s)) <==> s.Some?
    ensures s.Some? ==> GetComponent(FromStaticMeshComponent(s)) == Some(StaticScene(s.value))
    ensures IsValid(FromSkeletalMeshComponent(k)) <==> k.Some?
    ensures k.Some? ==> GetComponent(FromSkeletalMeshComponent(k)) == Some(SkeletalScene(k.value))
    ensures IsValid(FromCameraComponent(c)) <==> c.Some?
    ensures c.Some? ==> GetComponent(FromCameraComponent(c)) == Some(CameraScene(c.value))
  {
  }

  /** The mesh asset an entry stands for: the static mesh of a live static
    * component, otherwise the asset of a live skeletal component. */
  function MeshAsset(m: MeshComponent): (r: Option<Asset>)
    ensures m.staticMeshComponent.Some? ==> r == m.staticMeshComponent.value.staticMesh
    ensures m.staticMeshComponent.None? && m.skeletalMeshComponent.Some? ==> r == m.skeletalMeshComponent.value.skeletalMeshAsset
    ensures m.staticMeshComponent.None? && m.skeletalMeshComponent.None? ==> r.None?
  {
    if m.staticMeshComponent.Some? then m.staticMeshComponent.value.staticMesh
    else if m.skeletalMeshComponent.Some? then m.skeletalMeshComponent.value.skeletalMeshAsset
    else None
  }
}
