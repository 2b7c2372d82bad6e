/**
 * `operators/quick_snap.py`: a two-click modal tool that picks a source point
 * on the selection and a destination point in the scene, then moves the
 * selection by the difference. Ray casts and screen projections are inputs:
 * the host supplies each candidate's distance from the cursor in pixels
 * (`None` when the point does not project onto the region).
 */
module QuickSnap {
  import opened Common
  import opened HostData

  /** `_SCREEN_THRESHOLD_PX`: how close, in pixels, a vertex must be. */
  const ScreenThresholdPx: real := 14.0
  /** The origin threshold `_SCREEN_THRESHOLD_PX * 1.2` (16.8 px). */
  const OriginThresholdPx: real := ScreenThresholdPx * 1.2
  /** The screen-fallback threshold `_SCREEN_THRESHOLD_PX * 1.5` (21 px). */
  const FallbackThresholdPx: real := ScreenThresholdPx * 1.5
  /** Translations shorter than `1e-6` move nothing; compared squared. */
  const MinTranslationSquared: real := 0.000000000001

  /** `_SNAP_OBJECT_TYPES`. */
  predicate IsSnapKind(k: ObjectKind)
  {
    k == Mesh || k == CurveObject || k == Surface || k == Meta || k == Font
  }

  /** `_PickInfo`: the picked world location, the object it belongs to, and its caption (the `label`). */
  datatype PickInfo = PickInfo(location: Vec3, obj: Option<SceneObject>, caption: string)

  /** A world point (an object's `matrix_world.translation`) and its distance from the cursor on screen. */
  datatype Projection = Projection(world: Vec3, screenDist: Option<real>)

  /** A `(distance, _PickInfo)` pair. */
  datatype Candidate = Candidate(dist: real, info: PickInfo)

  function VertexLabel(name: string): string { "vertex on '" + name + "'" }
  function OriginLabel(name: string): string { "origin of '" + name + "'" }
  function PointLabel(name: string): string { "point on '" + name + "'" }

  // ---------------------------------------------------------------------------
  // min(candidates, key=lambda item: item[0])
  // ---------------------------------------------------------------------------

  /** The position Python's `min` picks by distance: the first of least distance. */
  function MinFirstIndex(cs: seq<Candidate>): (p: nat)
    requires cs != []
    ensures p < |cs|
  {
    if |cs| == 1 then 0
    else
      var p := MinFirstIndex(cs[..|cs| - 1]);
      if cs[|cs| - 1].dist < cs[p].dist then |cs| - 1 else p
  }

  /** `min(candidates, key=lambda item: item[0])`. */
  function MinFirst(cs: seq<Candidate>): Candidate
    requires cs != []
  {
    cs[MinFirstIndex(cs)]
  }

  /** Position `p` holds a least distance, and every earlier candidate is strictly farther. */
  predicate IsFirstMin(cs: seq<Candidate>, p: int)
  {
    && 0 <= p < |cs|
    && (forall q :: 0 <= q < |cs| ==> cs[p].dist <= cs[q].dist)
    && (forall q :: 0 <= q < p ==> cs[q].dist > cs[p].dist)
  }

  /** `min` returns the first candidate of least distance. */
  lemma {:induction false} MinFirstMeaning(cs: seq<Candidate>)
    requires cs != []
    ensures IsFirstMin(cs, MinFirstIndex(cs))
  {
    if |cs| > 1 {
      var n := |cs| - 1;
      var init := cs[..n];
      MinFirstMeaning(init);
      assert forall q :: 0 <= q < n ==> cs[q] == init[q];
    }
  }

  // ---------------------------------------------------------------------------
  // _vertex_candidate
  // ---------------------------------------------------------------------------

  /**
   * An evaluated mesh as the snap tool sees it: world-space vertex positions,
   * polygons as vertex-index lists, and each vertex's projected distance
   * from the cursor.
   */
  datatype SnapMesh = SnapMesh(positions: seq<Vec3>, polygons: seq<seq<nat>>, screenDist: seq<Option<real>>)

  /** One distance per vertex, and every polygon corner names a vertex. */
  predicate WellFormedSnapMesh(m: SnapMesh)
  {
    && |m.screenDist| == |m.positions|
    && forall j, k :: 0 <= j < |m.polygons| && 0 <= k < |m.polygons[j]| ==> m.polygons[j][k] < |m.positions|
  }

  /** `0, 1, …, n - 1`. */
  function Range(n: nat): (r: seq<nat>)
    ensures |r| == n && forall i :: 0 <= i < n ==> r[i] == i
  {
    seq(n, i requires 0 <= i < n => i)
  }

  /** The vertices examined: the hit face's when the face index is valid, else every vertex. */
  function CandidateIndices(m: SnapMesh, faceIndex: int): (r: seq<nat>)
    requires WellFormedSnapMesh(m)
    ensures forall i :: 0 <= i < |r| ==> r[i] < |m.positions|
  {
    if 0 <= faceIndex < |m.polygons| then m.polygons[faceIndex] else Range(|m.positions|)
  }

  /** A vertex whose projection lies within the threshold. */
  predicate InReach(dists: seq<Option<real>>, v: nat)
  {
    v < |dists| && dists[v].Some? && dists[v].value <= ScreenThresholdPx
  }

  /**
   * The position in `indices` of the vertex the loop keeps (or -1): the
   * bound starts at 14 px and an equal distance replaces the earlier vertex.
   */
  function BestPos(indices: seq<nat>, dists: seq<Option<real>>): (p: int)
    requires forall i :: 0 <= i < |indices| ==> indices[i] < |dists|
    ensures -1 <= p < |indices|
    ensures p >= 0 ==> InReach(dists, indices[p])
  {
    if indices == [] then -1
    else
      var n := |indices| - 1;
      var p := BestPos(indices[..n], dists);
      var bound := if p < 0 then ScreenThresholdPx else dists[indices[p]].value;
      var d := dists[indices[n]];
      if d.Some? && d.value <= bound then n else p
  }

  /**
   * Position `p` holds a vertex within reach that is no farther than any
   * vertex within reach, while every later one within reach is strictly farther.
   */
  predicate IsLastBest(indices: seq<nat>, dists: seq<Option<real>>, p: int)
  {
    && 0 <= p < |indices| && InReach(dists, indices[p])
    && (forall q :: 0 <= q < |indices| && InReach(dists, indices[q]) ==> dists[indices[p]].value <= dists[indices[q]].value)
    && (forall q :: p < q < |indices| && InReach(dists, indices[q]) ==> dists[indices[q]].value > dists[indices[p]].value)
  }

  /**
   * A vertex is found exactly when one lies within 14 px, and the one found
   * is the last of the nearest: `<=` lets an equally near later vertex win.
   */
  lemma {:induction false} BestPosMeaning(indices: seq<nat>, dists: seq<Option<real>>)
    requires forall i :: 0 <= i < |indices| ==> indices[i] < |dists|
    ensures var p := BestPos(indices, dists);
      && (p < 0 <==> forall i :: 0 <= i < |indices| ==> !InReach(dists, indices[i]))
      && (p >= 0 ==> IsLastBest(indices, dists, p))
  {
    if indices != [] {
      var n := |indices| - 1;
      var init := indices[..n];
      BestPosMeaning(init, dists);
      assert forall q :: 0 <= q < n ==> init[q] == indices[q];
    }
  }

  /** `_vertex_candidate` as a value: none for a non-snappable object or no mesh, else the kept vertex if any. */
  function VertexCandidateOf(obj: SceneObject, mesh: Option<SnapMesh>, faceIndex: int): Option<Candidate>
    requires mesh.Some? ==> WellFormedSnapMesh(mesh.value)
  {
    if !IsSnapKind(obj.kind) || mesh.None? then None
    else
      var m := mesh.value;
      var indices := CandidateIndices(m, faceIndex);
      var p := BestPos(indices, m.screenDist);
      if p < 0 then None
      else Some(Candidate(m.screenDist[indices[p]].value, PickInfo(m.positions[indices[p]], Some(obj), VertexLabel(obj.name))))
  }

  /** `_vertex_candidate`: the loop over the examined vertices with `best_dist` and `best_info`. */
  method VertexCandidate(obj: SceneObject, mesh: Option<SnapMesh>, faceIndex: int) returns (c: Option<Candidate>)
    requires mesh.Some? ==> WellFormedSnapMesh(mesh.value)
    ensures c == VertexCandidateOf(obj, mesh, faceIndex)
    ensures c.Some? ==> c.value.dist <= ScreenThresholdPx
  {
    if !IsSnapKind(obj.kind) || mesh.None? {
      return None;
    }
    var m := mesh.value;
    var indices := CandidateIndices(m, faceIndex);
    var bestDist := ScreenThresholdPx;
    var best: Option<nat> := None;
    var i := 0;
    while i < |indices|
      invariant 0 <= i <= |indices|
      invariant var p := BestPos(indices[..i], m.screenDist);
        && (p < 0 ==> best.None? && bestDist == ScreenThresholdPx)
        && (p >= 0 ==> best == Some(indices[p]) && bestDist == m.screenDist[indices[p]].value)
    {
      var idx := indices[i];
      assert indices[..i + 1][..i] == indices[..i];
      var d := m.screenDist[idx];
      if d.Some? && d.value <= bestDist {
        bestDist := d.value;
        best := Some(idx);
      }
      i := i + 1;
    }
    assert indices[..i] == indices;
    if best.None? {
      return None;
    }
    return Some(Candidate(bestDist, PickInfo(m.positions[best.value], Some(obj), VertexLabel(obj.name))));
  }

  // ---------------------------------------------------------------------------
  // _origin_candidate and _build_pick_info
  // ---------------------------------------------------------------------------

  /** `_origin_candidate`: the object's origin when it projects within 16.8 px. */
  function OriginCandidate(obj: SceneObject, origin: Projection): (c: Option<Candidate>)
    ensures c.Some? <==> origin.screenDist.Some? && origin.screenDist.value <= OriginThresholdPx
    ensures c.Some? ==> c.value == Candidate(origin.screenDist.value, PickInfo(origin.world, Some(obj), OriginLabel(obj.name)))
  {
    if origin.screenDist.None? || origin.screenDist.value > OriginThresholdPx then None
    else Some(Candidate(origin.screenDist.value, PickInfo(origin.world, Some(obj), OriginLabel(obj.name))))
  }

  /** The present candidates, vertex first. */
  function PresentCandidates(vertex: Option<Candidate>, origin: Option<Candidate>): seq<Candidate>
  {
    (if vertex.Some? then [vertex.value] else []) + (if origin.Some? then [origin.value] else [])
  }

  /**
   * `_build_pick_info` after the edit-mode selected-vertex shortcut (whose
   * pick, when taken, is `selectedVertexPick`): the nearer of the vertex and
   * origin candidates, else the surface point that was hit.
   */
  function BuildPickInfo(obj: SceneObject, hitLocation: Vec3, selectedVertexPick: Option<PickInfo>,
                         vertex: Option<Candidate>, origin: Option<Candidate>): PickInfo
  {
    if selectedVertexPick.Some? then selectedVertexPick.value
    else
      var cs := PresentCandidates(vertex, origin);
      if cs != [] then MinFirst(cs).info
      else PickInfo(hitLocation, Some(obj), PointLabel(obj.name))
  }

  /**
   * Without the shortcut, the vertex wins whenever it is no farther than the
   * origin (a tie goes to the vertex), the origin wins only when strictly
   * nearer, and the hit point is used when neither exists.
   */
  lemma BuildPickInfoChoice(obj: SceneObject, hitLocation: Vec3, vertex: Option<Candidate>, origin: Option<Candidate>)
    ensures var pick := BuildPickInfo(obj, hitLocation, None, vertex, origin);
      && (vertex.Some? && (origin.None? || vertex.value.dist <= origin.value.dist) ==> pick == vertex.value.info)
      && (origin.Some? && (vertex.None? || origin.value.dist < vertex.value.dist) ==> pick == origin.value.info)
      && (vertex.None? && origin.None? ==> pick == PickInfo(hitLocation, Some(obj), PointLabel(obj.name)))
  {
    var cs := PresentCandidates(vertex, origin);
    if vertex.Some? && origin.Some? {
      assert cs == [vertex.value, origin.value];
      assert cs[..1] == [vertex.value];
    } else if vertex.Some? {
      assert cs == [vertex.value];
    } else if origin.Some? {
      assert cs == [origin.value];
    }
  }

  // ---------------------------------------------------------------------------
  // _pick_origin_from_screen
  // ---------------------------------------------------------------------------

  /** The `candidates` list: each object whose origin projects within 21 px, in order. */
  function ScreenCandidates(objs: seq<SceneObject>, originOf: SceneObject -> Projection): seq<Candidate>
  {
    if objs == [] then []
    else
      var n := |objs| - 1;
      var o := objs[n];
      var d := originOf(o).screenDist;
      ScreenCandidates(objs[..n], originOf)
        + (if d.Some? && d.value <= FallbackThresholdPx
           then [Candidate(d.value, PickInfo(originOf(o).world, Some(o), OriginLabel(o.name)))]
           else [])
  }

  /** Every screen candidate is an object's origin within 21 px, and every such object is among them. */
  lemma {:induction false} ScreenCandidatesMeaning(objs: seq<SceneObject>, originOf: SceneObject -> Projection)
    ensures forall c :: c in ScreenCandidates(objs, originOf) ==>
      && c.dist <= FallbackThresholdPx && c.info.obj.Some? && c.info.obj.value in objs
      && originOf(c.info.obj.value) == Projection(c.info.location, Some(c.dist))
    ensures forall o :: o in objs && originOf(o).screenDist.Some? && originOf(o).screenDist.value <= FallbackThresholdPx ==>
      Candidate(originOf(o).screenDist.value, PickInfo(originOf(o).world, Some(o), OriginLabel(o.name)))
        in ScreenCandidates(objs, originOf)
  {
    if objs != [] {
      var n := |objs| - 1;
      ScreenCandidatesMeaning(objs[..n], originOf);
      assert objs == objs[..n] + [objs[n]];
    }
  }

  /** `_pick_origin_from_screen`: collect the origins within 21 px, then take the nearest (the first on a tie). */
  method PickOriginFromScreen(objs: seq<SceneObject>, originOf: SceneObject -> Projection) returns (pick: Option<PickInfo>)
    ensures var cs := ScreenCandidates(objs, originOf);
      pick == if cs == [] then None else Some(MinFirst(cs).info)
  {
    var candidates: seq<Candidate> := [];
    var i := 0;
    while i < |objs|
      invariant 0 <= i <= |objs|
      invariant candidates == ScreenCandidates(objs[..i], originOf)
    {
      var obj := objs[i];
      assert objs[..i + 1][..i] == objs[..i];
      var origin := originOf(obj);
      if origin.screenDist.Some? && origin.screenDist.value <= FallbackThresholdPx {
        candidates := candidates + [Candidate(origin.screenDist.value, PickInfo(origin.world, Some(obj), OriginLabel(obj.name)))];
      }
      i := i + 1;
    }
    assert objs[..i] == objs;
    if candidates == [] {
      return None;
    }
    return Some(MinFirst(candidates).info);
  }

  /** An object whose origin projects within the fallback threshold. */
  predicate OriginInReach(originOf: SceneObject -> Projection, o: SceneObject)
  {
    originOf(o).screenDist.Some? && originOf(o).screenDist.value <= FallbackThresholdPx
  }

  /**
   * The fallback finds an origin exactly when some candidate object's origin
   * projects within 21 px, and the one it finds is at least as near as every
   * such origin.
   */
  lemma ScreenPickMeaning(objs: seq<SceneObject>, originOf: SceneObject -> Projection)
    ensures var cs := ScreenCandidates(objs, originOf);
      && (cs == [] <==> forall o :: o in objs ==> !OriginInReach(originOf, o))
      && (cs != [] ==>
            var best := MinFirst(cs);
            && best.info.obj.Some? && best.info.obj.value in objs && OriginInReach(originOf, best.info.obj.value)
            && best.info.location == originOf(best.info.obj.value).world
            && forall o :: o in objs && OriginInReach(originOf, o) ==> best.dist <= originOf(o).screenDist.value)
  {
    var cs := ScreenCandidates(objs, originOf);
    ScreenCandidatesMeaning(objs, originOf);
    if cs != [] {
      MinFirstMeaning(cs);
      forall o | o in objs && OriginInReach(originOf, o) ensures MinFirst(cs).dist <= originOf(o).screenDist.value {
        var c := Candidate(originOf(o).screenDist.value, PickInfo(originOf(o).world, Some(o), OriginLabel(o.name)));
        assert c in cs;
      }
    }
  }

  /** The editor mode the tool runs in. */
  datatype Mode = ObjectMode | EditMeshMode | OtherMode

  /**
   * `_candidate_objects`: in object mode the visible selected objects (when
   * restricted) or the visible view-layer objects; in edit mode the objects
   * being edited; otherwise none.
   */
  function CandidateObjects(mode: Mode, restrict: bool, selected: seq<SceneObject>,
                            viewLayer: seq<SceneObject>, editObjects: seq<SceneObject>): (r: seq<SceneObject>)
    ensures mode == ObjectMode ==> forall i :: 0 <= i < |r| ==> r[i].viewportVisible
    ensures mode == ObjectMode && restrict ==> forall i :: 0 <= i < |r| ==> r[i] in selected
    ensures mode == ObjectMode && !restrict ==> forall i :: 0 <= i < |r| ==> r[i] in viewLayer
    ensures mode == ObjectMode ==>
      forall o :: o in (if restrict then selected else viewLayer) && o.viewportVisible ==> o in r
    ensures mode == EditMeshMode ==> r == editObjects
    ensures mode == OtherMode ==> r == []
  {
    match mode
    case ObjectMode =>
      var r := Keep(if restrict then selected else viewLayer, (o: SceneObject) => o.viewportVisible);
      KeepSubset(if restrict then selected else viewLayer, (o: SceneObject) => o.viewportVisible);
      r
    case EditMeshMode => editObjects
    case OtherMode => []
  }

  lemma KeepSubset(s: seq<SceneObject>, keep: SceneObject -> bool)
    ensures forall i :: 0 <= i < |Keep(s, keep)| ==> Keep(s, keep)[i] in s
    ensures forall o :: o in s && keep(o) ==> o in Keep(s, keep)
  {
    forall i | 0 <= i < |Keep(s, keep)| ensures Keep(s, keep)[i] in s {
      KeepMember(s, keep, Keep(s, keep)[i]);
    }
    forall o | o in s && keep(o) ensures o in Keep(s, keep) {
      KeepMember(s, keep, o);
    }
  }

  /**
   * `_pick_point` once the view is known: a ray hit on an object outside the
   * selection is refused while picking the source; any other hit is resolved
   * by `_build_pick_info`; without a hit the screen fallback decides.
   */
  function PickPoint(viewReady: bool, hitObject: Option<SceneObject>, restrict: bool, inSelection: bool,
                     built: PickInfo, fallback: Option<PickInfo>): (pick: Option<PickInfo>)
    ensures !viewReady ==> pick.None?
    ensures viewReady && hitObject.Some? ==> pick == (if restrict && !inSelection then None else Some(built))
    ensures viewReady && hitObject.None? ==> pick == fallback
  {
    if !viewReady then None
    else if hitObject.Some? then
      if restrict && !inSelection then None else Some(built)
    else fallback
  }

  // ---------------------------------------------------------------------------
  // _apply_translation (object mode)
  // ---------------------------------------------------------------------------

  /** Each frame object's location once the translation loop has covered `done`. */
  ghost predicate TranslatedSoFar(frame: set<SceneObject>, done: seq<SceneObject>, locations0: map<SceneObject, Vec3>, t: Vec3)
    reads frame
  {
    && frame <= locations0.Keys
    && forall o :: o in frame ==> o.location == (if o in done then locations0[o].Plus(t) else locations0[o])
  }

  /** `for obj in context.selected_objects: obj.location += translation` over distinct objects. */
  method TranslateObjects(objs: seq<SceneObject>, t: Vec3, ghost frame: set<SceneObject>)
    requires Distinct(objs)
    requires forall i :: 0 <= i < |objs| ==> objs[i] in frame
    modifies frame
    ensures forall o :: o in frame ==> o.location == (if o in objs then old(o.location).Plus(t) else old(o.location))
    ensures forall o :: o in frame ==> o.scale == old(o.scale) && o.selected == old(o.selected)
  {
    ghost var locations0 := map o | o in frame :: o.location;
    var i := 0;
    while i < |objs|
      invariant 0 <= i <= |objs|
      invariant TranslatedSoFar(frame, objs[..i], locations0, t)
      invariant forall o :: o in frame ==> o.scale == old(o.scale) && o.selected == old(o.selected)
    {
      var obj := objs[i];
      DistinctNotBefore(objs, i);
      obj.location := obj.location.Plus(t);
      assert objs[..i + 1] == objs[..i] + [obj];
      i := i + 1;
    }
    assert objs[..i] == objs;
  }

  /** The translation moves nothing: shorter than `1e-6`. */
  predicate NegligibleTranslation(t: Vec3)
  {
    t.LengthSquared() < MinTranslationSquared
  }

  /** Picking the same point twice gives a negligible translation. */
  lemma SamePointNegligible(p: Vec3)
    ensures NegligibleTranslation(p.Minus(p))
  {
    assert p.Minus(p) == Vec3(0.0, 0.0, 0.0);
  }

  // ---------------------------------------------------------------------------
  // The operator
  // ---------------------------------------------------------------------------

  datatype Stage = Source | Dest

  /** What `_handle_click` reports. */
  datatype ClickResult = Blocked | Continue | ClickFinished

  /** What `invoke` / `modal` hand back to the host. */
  datatype ModalResult = RunningModal | ModalFinished | ModalCancelled | PassThrough

  datatype EventType = Esc | RightMouse | LeftMouse | OtherEvent
  datatype Event = Event(kind: EventType, press: bool)

  /** The context `invoke` checks. */
  datatype InvokeContext = InvokeContext(
    areaIsView3D: bool,
    regionIsWindow: bool,
    mode: Mode,
    hasSelectedObjects: bool,
    anySelectedVertices: bool)

  /** `invoke` starts the tool only from the 3D view's main region, in a supported mode with something to move. */
  predicate CanStart(c: InvokeContext)
  {
    && c.areaIsView3D && c.regionIsWindow
    && c.mode != OtherMode
    && (c.mode == ObjectMode ==> c.hasSelectedObjects)
    && (c.mode == EditMeshMode ==> c.anySelectedVertices)
  }

  class QuickSnapOperator {
    var stage: Stage
    var sourcePoint: Option<Vec3>
    var sourceLabel: string

    /** A source point is held exactly while the destination is being picked. */
    ghost predicate Valid()
      reads this
    {
      stage == Dest <==> sourcePoint.Some?
    }

    /** `__init__`. */
    constructor ()
      ensures stage == Source && sourcePoint == None && sourceLabel == ""
      ensures Valid()
    {
      stage := Source;
      sourcePoint := None;
      sourceLabel := "";
    }

    /** `_reset_state`. */
    method ResetState()
      modifies this
      ensures stage == Source && sourcePoint == None && sourceLabel == ""
      ensures Valid()
    {
      stage := Source;
      sourcePoint := None;
      sourceLabel := "";
    }

    /** `invoke`: cancel unless the tool can start; otherwise reset and run modally. */
    method Invoke(c: InvokeContext) returns (r: ModalResult)
      modifies this
      ensures !CanStart(c) ==> r == ModalCancelled && unchanged(this)
      ensures CanStart(c) ==> r == RunningModal && stage == Source && sourcePoint == None && sourceLabel == ""
      ensures CanStart(c) ==> Valid()
    {
      if !c.areaIsView3D {
        return ModalCancelled;
      }
      if !c.regionIsWindow {
        return ModalCancelled;
      }
      if c.mode == OtherMode {
        return ModalCancelled;
      }
      if c.mode == ObjectMode && !c.hasSelectedObjects {
        return ModalCancelled;
      }
      if c.mode == EditMeshMode && !c.anySelectedVertices {
        return ModalCancelled;
      }
      ResetState();
      return RunningModal;
    }

    /**
     * `_apply_translation`: in object mode every selected object moves and
     * the result says whether anything was selected; in edit mode the
     * host reports whether any selected vertices moved; otherwise false.
     */
    method ApplyTranslation(mode: Mode, selected: seq<SceneObject>, t: Vec3, editMoved: bool) returns (moved: bool)
      requires Distinct(selected)
      modifies set o | o in selected
      ensures moved == (if mode == ObjectMode then selected != [] else mode == EditMeshMode && editMoved)
      ensures forall o :: o in selected ==>
        o.location == (if mode == ObjectMode then old(o.location).Plus(t) else old(o.location))
      ensures forall o :: o in selected ==> o.scale == old(o.scale) && o.selected == old(o.selected)
    {
      if mode == ObjectMode {
        TranslateObjects(selected, t, set o | o in selected);
        return selected != [];
      }
      if mode == EditMeshMode {
        return editMoved;
      }
      return false;
    }

    /**
     * `_handle_click` given the pick under the cursor: no pick blocks; a
     * source pick is stored and the tool waits for the destination; a
     * destination pick finishes, moving the selection by the difference
     * unless it is negligible.
     */
    method HandleClick(pick: Option<PickInfo>, mode: Mode, selected: seq<SceneObject>, editMoved: bool)
      returns (result: ClickResult, moved: bool)
      requires Valid() && Distinct(selected)
      modifies this, set o | o in selected
      ensures Valid()
      ensures forall o :: o in selected ==> o.scale == old(o.scale) && o.selected == old(o.selected)
      ensures pick.None? ==>
        && result == Blocked && !moved && unchanged(this)
        && forall o :: o in selected ==> o.location == old(o.location)
      ensures pick.Some? && old(stage) == Source ==>
        && result == Continue && !moved
        && stage == Dest && sourcePoint == Some(pick.value.location) && sourceLabel == pick.value.caption
        && forall o :: o in selected ==> o.location == old(o.location)
      ensures pick.Some? && old(stage) == Dest ==>
        var t := pick.value.location.Minus(old(sourcePoint).value);
        && result == ClickFinished && unchanged(this)
        && (NegligibleTranslation(t) ==> !moved && forall o :: o in selected ==> o.location == old(o.location))
        && (!NegligibleTranslation(t) ==>
              && moved == (if mode == ObjectMode then selected != [] else mode == EditMeshMode && editMoved)
              && forall o :: o in selected ==>
                   o.location == (if mode == ObjectMode then old(o.location).Plus(t) else old(o.location)))
    {
      if pick.None? {
        return Blocked, false;
      }
      if stage == Source {
        sourcePoint := Some(pick.value.location);
        sourceLabel := pick.value.caption;
        stage := Dest;
        return Continue, false;
      }
      var translation := pick.value.location.Minus(sourcePoint.value);
      if translation.LengthSquared() < MinTranslationSquared {
        return ClickFinished, false;
      }
      moved := ApplyTranslation(mode, selected, translation, editMoved);
      return ClickFinished, moved;
    }

    /**
     * `modal`: ESC or right click cancels; a left press is handled as a click
     * and finishes the tool when the click does; any other event passes through.
     */
    method Modal(event: Event, pick: Option<PickInfo>, mode: Mode, selected: seq<SceneObject>, editMoved: bool)
      returns (r: ModalResult)
      requires Valid() && Distinct(selected)
      modifies this, set o | o in selected
      ensures Valid()
      ensures event.kind == Esc || event.kind == RightMouse ==>
        r == ModalCancelled && unchanged(this) && forall o :: o in selected ==> o.location == old(o.location)
      ensures forall o :: o in selected ==> o.scale == old(o.scale) && o.selected == old(o.selected)
      ensures event.kind == LeftMouse && event.press && pick.None? ==>
        r == RunningModal && unchanged(this) && forall o :: o in selected ==> o.location == old(o.location)
      ensures event.kind == LeftMouse && event.press && pick.Some? && old(stage) == Source ==>
        && r == RunningModal
        && stage == Dest && sourcePoint == Some(pick.value.location) && sourceLabel == pick.value.caption
        && forall o :: o in selected ==> o.location == old(o.location)
      ensures event.kind == LeftMouse && event.press && pick.Some? && old(stage) == Dest ==>
        var t := pick.value.location.Minus(old(sourcePoint).value);
        && r == ModalFinished && unchanged(this)
        && forall o :: o in selected ==>
             o.location == (if mode == ObjectMode && !NegligibleTranslation(t) then old(o.location).Plus(t) else old(o.location))
      ensures !(event.kind == LeftMouse && event.press) && event.kind != Esc && event.kind != RightMouse ==>
        r == PassThrough && unchanged(this) && forall o :: o in selected ==> o.location == old(o.location)
    {
      if event.kind == Esc || event.kind == RightMouse {
        return ModalCancelled;
      }
      if event.kind == LeftMouse && event.press {
        var result, moved := HandleClick(pick, mode, selected, editMoved);
        if result == ClickFinished {
          return ModalFinished;
        }
        return RunningModal;
      }
      return PassThrough;
    }
  }
}
