/**
 * `operators/physics_dropper.py`: drop the selected objects straight down
 * onto ground geometry. Ray casts are inputs: for each drop target the host
 * supplies, per bottom corner, the corner's height and the height of the
 * surface the downward ray hit (if any).
 */
module PhysicsDropper {
  import opened Common
  import opened HostData
  import opened Objects

  /** The object kinds the operator drops: MESH, CURVE, SURFACE, FONT, META, GPENCIL, EMPTY. */
  predicate IsDropKind(k: ObjectKind)
  {
    k == Mesh || k == CurveObject || k == Surface || k == Font || k == Meta || k == GPencil || k == Empty
  }

  /** `selected_editable_objects`, or `selected_objects` when there are none. */
  function Candidates(editable: seq<SceneObject>, selected: seq<SceneObject>): seq<SceneObject>
  {
    if editable != [] then editable else selected
  }

  /** `drop_targets`: the candidates of a droppable kind, in order. */
  function DropTargets(candidates: seq<SceneObject>): seq<SceneObject>
  {
    Keep(candidates, (o: SceneObject) => IsDropKind(o.kind))
  }

  /** The drop targets are exactly the droppable candidates, without repeats when the selection has none. */
  lemma DropTargetsMeaning(candidates: seq<SceneObject>)
    ensures forall o :: o in DropTargets(candidates) <==> o in candidates && IsDropKind(o.kind)
    ensures Distinct(candidates) ==> Distinct(DropTargets(candidates))
  {
    forall o {
      KeepMember(candidates, (o: SceneObject) => IsDropKind(o.kind), o);
    }
    if Distinct(candidates) {
      KeepDistinct(candidates, (o: SceneObject) => IsDropKind(o.kind));
    }
  }

  // ---------------------------------------------------------------------------
  // _gather_ground_objects
  // ---------------------------------------------------------------------------

  /** The `drop_*` settings the operator reads. */
  datatype DropSettings = DropSettings(
    collisionCollection: Option<Collection>,
    includeSubcollections: bool,
    contactOffset: real)

  /**
   * `_gather_ground_objects`: the meshes of the collision collection when one
   * is set; otherwise the scene's meshes that are not being dropped.
   */
  function GroundObjects(sceneObjects: seq<SceneObject>, s: DropSettings, targets: seq<SceneObject>): seq<SceneObject>
  {
    if s.collisionCollection.Some? then
      Keep(CollectionObjects(s.collisionCollection, s.includeSubcollections), (o: SceneObject) => o.kind == Mesh)
    else
      Keep(sceneObjects, (o: SceneObject) => o !in targets && o.kind == Mesh)
  }

  /**
   * Ground objects are always meshes; without a collision collection they are
   * exactly the scene meshes that are not targets, while a collision
   * collection's meshes are used even when they are being dropped.
   */
  lemma GroundObjectsMember(sceneObjects: seq<SceneObject>, s: DropSettings, targets: seq<SceneObject>, o: SceneObject)
    ensures o in GroundObjects(sceneObjects, s, targets) ==> o.kind == Mesh
    ensures s.collisionCollection.None? ==>
      (o in GroundObjects(sceneObjects, s, targets) <==> o in sceneObjects && o !in targets && o.kind == Mesh)
    ensures s.collisionCollection.Some? ==>
      (o in GroundObjects(sceneObjects, s, targets) <==>
         o in CollectionObjects(s.collisionCollection, s.includeSubcollections) && o.kind == Mesh)
  {
    if s.collisionCollection.Some? {
      KeepMember(CollectionObjects(s.collisionCollection, s.includeSubcollections), (o: SceneObject) => o.kind == Mesh, o);
    } else {
      KeepMember(sceneObjects, (o: SceneObject) => o !in targets && o.kind == Mesh, o);
    }
  }

  // ---------------------------------------------------------------------------
  // _build_bvh_tree: concatenating the ground meshes
  // ---------------------------------------------------------------------------

  /** An evaluated mesh: world-space vertex positions and polygons as vertex-index lists. */
  datatype MeshData = MeshData(vertices: seq<Vec3>, polygons: seq<seq<nat>>)

  /** Every polygon corner names a vertex of the mesh. */
  predicate WellFormedMesh(m: MeshData)
  {
    forall j, k :: 0 <= j < |m.polygons| && 0 <= k < |m.polygons[j]| ==> m.polygons[j][k] < |m.vertices|
  }

  /** The object adds geometry: it is a mesh and the host evaluates it to a mesh. */
  predicate Contributes(o: SceneObject, meshOf: SceneObject -> Option<MeshData>)
  {
    o.kind == Mesh && meshOf(o).Some?
  }

  /** `tuple(vertex_index + offset for vertex_index in poly.vertices)`. */
  function Shifted(poly: seq<nat>, offset: nat): (r: seq<nat>)
    ensures |r| == |poly| && forall k :: 0 <= k < |poly| ==> r[k] == poly[k] + offset
  {
    seq(|poly|, k requires 0 <= k < |poly| => poly[k] + offset)
  }

  function ShiftedAll(polys: seq<seq<nat>>, offset: nat): (r: seq<seq<nat>>)
    ensures |r| == |polys| && forall j :: 0 <= j < |polys| ==> r[j] == Shifted(polys[j], offset)
  {
    seq(|polys|, j requires 0 <= j < |polys| => Shifted(polys[j], offset))
  }

  /** The `vertices` list once `objs` are processed. */
  function MergedVertices(objs: seq<SceneObject>, meshOf: SceneObject -> Option<MeshData>): seq<Vec3>
  {
    if objs == [] then []
    else
      var n := |objs| - 1;
      MergedVertices(objs[..n], meshOf) + (if Contributes(objs[n], meshOf) then meshOf(objs[n]).value.vertices else [])
  }

  /** The `polygons` list once `objs` are processed: each mesh's indices shifted past the earlier vertices. */
  function MergedPolygons(objs: seq<SceneObject>, meshOf: SceneObject -> Option<MeshData>): seq<seq<nat>>
  {
    if objs == [] then []
    else
      var n := |objs| - 1;
      MergedPolygons(objs[..n], meshOf)
        + (if Contributes(objs[n], meshOf)
           then ShiftedAll(meshOf(objs[n]).value.polygons, |MergedVertices(objs[..n], meshOf)|)
           else [])
  }

  /** Every evaluated ground mesh is well formed. */
  predicate MeshesWellFormed(objs: seq<SceneObject>, meshOf: SceneObject -> Option<MeshData>)
  {
    forall i :: 0 <= i < |objs| && Contributes(objs[i], meshOf) ==> WellFormedMesh(meshOf(objs[i]).value)
  }

  /** Concatenating well-formed meshes with the running offset gives a well-formed mesh. */
  lemma {:induction false} MergedWellFormed(objs: seq<SceneObject>, meshOf: SceneObject -> Option<MeshData>)
    requires MeshesWellFormed(objs, meshOf)
    ensures WellFormedMesh(MeshData(MergedVertices(objs, meshOf), MergedPolygons(objs, meshOf)))
  {
    if objs != [] {
      var n := |objs| - 1;
      var init := objs[..n];
      assert MeshesWellFormed(init, meshOf) by {
        forall i | 0 <= i < |init| && Contributes(init[i], meshOf) ensures WellFormedMesh(meshOf(init[i]).value) {
          assert init[i] == objs[i];
        }
      }
      MergedWellFormed(init, meshOf);
    }
  }

  /**
   * Appending one object: a non-contributing one changes nothing, a mesh
   * appends its vertices and its polygons shifted past the earlier vertices.
   */
  lemma MergeUnfold(objs: seq<SceneObject>, o: SceneObject, meshOf: SceneObject -> Option<MeshData>)
    ensures MergedVertices(objs + [o], meshOf)
      == MergedVertices(objs, meshOf) + (if Contributes(o, meshOf) then meshOf(o).value.vertices else [])
    ensures MergedPolygons(objs + [o], meshOf)
      == MergedPolygons(objs, meshOf)
         + (if Contributes(o, meshOf) then ShiftedAll(meshOf(o).value.polygons, |MergedVertices(objs, meshOf)|) else [])
  {
    assert (objs + [o])[..|objs|] == objs;
  }

  /**
   * Corner `k` of polygon `j` of an appended mesh lands offset by the vertex
   * count of the earlier meshes and still names the same vertex position.
   */
  lemma MergeCorner(objs: seq<SceneObject>, o: SceneObject, meshOf: SceneObject -> Option<MeshData>, j: nat, k: nat)
    requires Contributes(o, meshOf) && WellFormedMesh(meshOf(o).value)
    requires j < |meshOf(o).value.polygons| && k < |meshOf(o).value.polygons[j]|
    ensures var m := meshOf(o).value;
      var vs := MergedVertices(objs + [o], meshOf);
      var q := MergedPolygons(objs + [o], meshOf)[|MergedPolygons(objs, meshOf)| + j];
      && k < |q| && q[k] == m.polygons[j][k] + |MergedVertices(objs, meshOf)|
      && q[k] < |vs| && vs[q[k]] == m.vertices[m.polygons[j][k]]
  {
    MergeUnfold(objs, o, meshOf);
    ShiftedCorner(MergedPolygons(objs, meshOf), MergedVertices(objs, meshOf), meshOf(o).value, j, k);
  }

  lemma ShiftedCorner(ps0: seq<seq<nat>>, vs0: seq<Vec3>, m: MeshData, j: nat, k: nat)
    requires WellFormedMesh(m) && j < |m.polygons| && k < |m.polygons[j]|
    ensures var q := (ps0 + ShiftedAll(m.polygons, |vs0|))[|ps0| + j];
      && k < |q| && q[k] == m.polygons[j][k] + |vs0|
      && q[k] < |vs0 + m.vertices| && (vs0 + m.vertices)[q[k]] == m.vertices[m.polygons[j][k]]
  {
    assert (ps0 + ShiftedAll(m.polygons, |vs0|))[|ps0| + j] == Shifted(m.polygons[j], |vs0|);
  }

  /**
   * `_build_bvh_tree` up to the tree itself: nothing for no objects or no
   * polygons, otherwise the concatenated mesh handed to `BVHTree.FromPolygons`.
   */
  method BuildMergedMesh(objs: seq<SceneObject>, meshOf: SceneObject -> Option<MeshData>) returns (r: Option<MeshData>)
    ensures objs == [] ==> r.None?
    ensures r.None? <==> MergedPolygons(objs, meshOf) == []
    ensures r.Some? ==> r.value == MeshData(MergedVertices(objs, meshOf), MergedPolygons(objs, meshOf))
  {
    if objs == [] {
      return None;
    }
    var vertices: seq<Vec3> := [];
    var polygons: seq<seq<nat>> := [];
    var offset: nat := 0;
    var i := 0;
    while i < |objs|
      invariant 0 <= i <= |objs|
      invariant vertices == MergedVertices(objs[..i], meshOf)
      invariant polygons == MergedPolygons(objs[..i], meshOf)
      invariant offset == |vertices|
    {
      var obj := objs[i];
      assert objs[..i + 1][..i] == objs[..i];
      if obj.kind != Mesh || meshOf(obj).None? {
        i := i + 1;
        continue;
      }
      var mesh := meshOf(obj).value;
      vertices := vertices + mesh.vertices;
      polygons := polygons + ShiftedAll(mesh.polygons, offset);
      offset := offset + |mesh.vertices|;
      i := i + 1;
    }
    assert objs[..i] == objs;
    if polygons == [] {
      return None;
    }
    return Some(MeshData(vertices, polygons));
  }

  // ---------------------------------------------------------------------------
  // The smallest drop of one object
  // ---------------------------------------------------------------------------

  /** The `1e-6` below which a corner counts as already resting on the surface. */
  const DropEpsilon: real := 0.000001

  /** One bottom corner's height and the height of the surface its ray hit, if any. */
  datatype CornerHit = CornerHit(cornerZ: real, surfaceZ: Option<real>)

  /** `distance_to_surface`: how far the corner must fall to rest `contactOffset` above the hit. */
  function DropDistance(h: CornerHit, contactOffset: real): real
    requires h.surfaceZ.Some?
  {
    h.cornerZ - (h.surfaceZ.value + contactOffset)
  }

  /** A hit that counts: there is one, and the corner is more than the epsilon above it. */
  predicate Qualifies(h: CornerHit, contactOffset: real)
  {
    h.surfaceZ.Some? && DropDistance(h, contactOffset) > DropEpsilon
  }

  /** `min_drop` after the corners in `hits`: replaced only by a strictly smaller qualifying drop. */
  function BestDrop(hits: seq<CornerHit>, contactOffset: real): Option<real>
  {
    if hits == [] then None
    else
      var n := |hits| - 1;
      var best := BestDrop(hits[..n], contactOffset);
      if Qualifies(hits[n], contactOffset) && (best.None? || DropDistance(hits[n], contactOffset) < best.value)
      then Some(DropDistance(hits[n], contactOffset))
      else best
  }

  /**
   * There is a drop exactly when some hit qualifies; it is then the drop of a
   * qualifying hit, above the epsilon, and no larger than any qualifying drop.
   */
  lemma {:induction false} BestDropMeaning(hits: seq<CornerHit>, contactOffset: real)
    ensures var r := BestDrop(hits, contactOffset);
      && (r.Some? <==> exists i :: 0 <= i < |hits| && Qualifies(hits[i], contactOffset))
      && (r.Some? ==>
            && r.value > DropEpsilon
            && (exists i :: 0 <= i < |hits| && Qualifies(hits[i], contactOffset) && DropDistance(hits[i], contactOffset) == r.value)
            && forall i :: 0 <= i < |hits| && Qualifies(hits[i], contactOffset) ==> r.value <= DropDistance(hits[i], contactOffset))
  {
    if hits != [] {
      var n := |hits| - 1;
      var init := hits[..n];
      BestDropMeaning(init, contactOffset);
      assert forall i :: 0 <= i < n ==> init[i] == hits[i];
      var best := BestDrop(init, contactOffset);
      if best.Some? {
        var i :| 0 <= i < |init| && Qualifies(init[i], contactOffset) && DropDistance(init[i], contactOffset) == best.value;
        assert Qualifies(hits[i], contactOffset);
      }
    }
  }

  /** The corner loop of `execute` for one object. */
  method MinDrop(hits: seq<CornerHit>, contactOffset: real) returns (minDrop: Option<real>)
    ensures minDrop == BestDrop(hits, contactOffset)
  {
    minDrop := None;
    var i := 0;
    while i < |hits|
      invariant 0 <= i <= |hits|
      invariant minDrop == BestDrop(hits[..i], contactOffset)
    {
      var h := hits[i];
      assert hits[..i + 1][..i] == hits[..i];
      if h.surfaceZ.None? {
        i := i + 1;
        continue;
      }
      var distance := h.cornerZ - (h.surfaceZ.value + contactOffset);
      if distance <= DropEpsilon {
        i := i + 1;
        continue;
      }
      if minDrop.None? || distance < minDrop.value {
        minDrop := Some(distance);
      }
      i := i + 1;
    }
    assert hits[..i] == hits;
  }

  // ---------------------------------------------------------------------------
  // ANIMATIONQOL_OT_drop_to_surface.execute
  // ---------------------------------------------------------------------------

  /** Where an object ends up: lowered by the drop when there is one, else where it was. */
  function DroppedLocation(location: Vec3, drop: Option<real>): (v: Vec3)
    ensures drop.None? ==> v == location
    ensures drop.Some? ==> v.x == location.x && v.y == location.y && v.z == location.z - drop.value
  {
    if drop.None? then location else location.(z := location.z - drop.value)
  }

  /** The targets that have a qualifying hit. */
  function Movable(targets: seq<SceneObject>, hitsOf: SceneObject -> seq<CornerHit>, contactOffset: real): seq<SceneObject>
  {
    Keep(targets, (o: SceneObject) => BestDrop(hitsOf(o), contactOffset).Some?)
  }

  ghost function TargetSet(editable: seq<SceneObject>, selected: seq<SceneObject>): set<SceneObject>
  {
    set o | o in DropTargets(Candidates(editable, selected))
  }

  /** Each frame object's location once the drop loop has covered `done`. */
  ghost predicate DroppedSoFar(frame: set<SceneObject>, done: seq<SceneObject>, locations0: map<SceneObject, Vec3>,
                               hitsOf: SceneObject -> seq<CornerHit>, contactOffset: real)
    reads frame
  {
    && frame <= locations0.Keys
    && forall o :: o in frame ==>
         o.location == (if o in done then DroppedLocation(locations0[o], BestDrop(hitsOf(o), contactOffset)) else locations0[o])
  }

  lemma MovableStep(targets: seq<SceneObject>, i: nat, hitsOf: SceneObject -> seq<CornerHit>, contactOffset: real)
    requires i < |targets|
    ensures targets[..i + 1] == targets[..i] + [targets[i]]
    ensures Movable(targets[..i + 1], hitsOf, contactOffset)
      == Movable(targets[..i], hitsOf, contactOffset) + (if BestDrop(hitsOf(targets[i]), contactOffset).Some? then [targets[i]] else [])
  {
    assert targets[..i + 1][..i] == targets[..i];
  }

  /** The drop loop over distinct targets, counting the objects it moves. */
  method DropTargetsLoop(targets: seq<SceneObject>, hitsOf: SceneObject -> seq<CornerHit>, contactOffset: real,
                         ghost frame: set<SceneObject>)
    returns (moveCount: nat)
    requires Distinct(targets)
    requires forall i :: 0 <= i < |targets| ==> targets[i] in frame
    modifies frame
    ensures moveCount == |Movable(targets, hitsOf, contactOffset)|
    ensures forall o :: o in frame ==>
      o.location == (if o in targets then DroppedLocation(old(o.location), BestDrop(hitsOf(o), contactOffset)) else old(o.location))
    ensures forall o :: o in frame ==> o.scale == old(o.scale) && o.selected == old(o.selected)
  {
    ghost var locations0 := map o | o in frame :: o.location;
    moveCount := 0;
    var i := 0;
    while i < |targets|
      invariant 0 <= i <= |targets|
      invariant moveCount == |Movable(targets[..i], hitsOf, contactOffset)|
      invariant DroppedSoFar(frame, targets[..i], locations0, hitsOf, contactOffset)
      invariant forall o :: o in frame ==> o.scale == old(o.scale) && o.selected == old(o.selected)
    {
      var obj := targets[i];
      DistinctNotBefore(targets, i);
      MovableStep(targets, i, hitsOf, contactOffset);
      var minDrop := MinDrop(hitsOf(obj), contactOffset);
      if minDrop.Some? {
        obj.location := obj.location.(z := obj.location.z - minDrop.value);
        moveCount := moveCount + 1;
      }
      i := i + 1;
    }
    assert targets[..i] == targets;
  }

  /**
   * `ANIMATIONQOL_OT_drop_to_surface.execute`: cancel without targets, without
   * ground objects or without ground polygons; otherwise lower every target
   * with a qualifying hit by its smallest drop, and cancel when none moved.
   */
  method DropToSurface(editable: seq<SceneObject>, selected: seq<SceneObject>, sceneObjects: seq<SceneObject>,
                       s: DropSettings, meshOf: SceneObject -> Option<MeshData>, hitsOf: SceneObject -> seq<CornerHit>)
    returns (status: Status, moveCount: nat)
    requires Distinct(editable) && Distinct(selected)
    requires forall o :: o in TargetSet(editable, selected) ==> allocated(o)
    modifies TargetSet(editable, selected)
    ensures var targets := DropTargets(Candidates(editable, selected));
      var ground := GroundObjects(sceneObjects, s, targets);
      var built := targets != [] && ground != [] && MergedPolygons(ground, meshOf) != [];
      && (!built ==>
            && status == Cancelled && moveCount == 0
            && forall o :: o in TargetSet(editable, selected) ==> o.location == old(o.location))
      && (built ==>
            && moveCount == |Movable(targets, hitsOf, s.contactOffset)|
            && (status == Cancelled <==> moveCount == 0)
            && forall o :: o in TargetSet(editable, selected) ==>
                 o.location == DroppedLocation(old(o.location), BestDrop(hitsOf(o), s.contactOffset)))
    ensures forall o :: o in TargetSet(editable, selected) ==> o.scale == old(o.scale) && o.selected == old(o.selected)
  {
    var candidates := if editable != [] then editable else selected;
    var targets := DropTargets(candidates);
    if targets == [] {
      return Cancelled, 0;
    }
    var ground := GroundObjects(sceneObjects, s, targets);
    if ground == [] {
      return Cancelled, 0;
    }
    var merged := BuildMergedMesh(ground, meshOf);
    if merged.None? {
      return Cancelled, 0;
    }
    DropTargetsMeaning(candidates);
    moveCount := DropTargetsLoop(targets, hitsOf, s.contactOffset, TargetSet(editable, selected));
    if moveCount == 0 {
      return Cancelled, 0;
    }
    return Finished, moveCount;
  }
}
