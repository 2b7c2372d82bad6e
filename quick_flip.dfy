/**
 * `animation_qol/operators/quick_flip.py`: mirror the objects of a scope on
 * one axis and paste flipped poses on its armatures.
 */
module QuickFlip {
  import opened Common
  import opened HostData
  import opened Objects

  /** `flip_axis`. */
  datatype Axis = X | Y | Z

  /** `_AXIS_TO_INDEX`. */
  function AxisIndex(a: Axis): (i: nat)
    ensures i < 3
    ensures (i == 0 <==> a == X) && (i == 1 <==> a == Y) && (i == 2 <==> a == Z)
  {
    match a
    case X => 0
    case Y => 1
    case Z => 2
  }

  /** The flip fields of the scene settings. */
  datatype FlipSettings = FlipSettings(
    axis: Axis,
    scope: Scope,
    collection: Option<Collection>,
    includeChildren: bool,
    includeSubcollections: bool)

  /** `_gather_targets`: the de-duplicated objects of the flip scope. */
  function Targets(selected: seq<SceneObject>, s: FlipSettings): seq<SceneObject>
  {
    ScopeObjects(selected, s.includeChildren, s.scope, s.collection, s.includeSubcollections)
  }

  /** Every object the flip scope can name, as a set (the frame of the flips). */
  ghost function TargetSet(selected: seq<SceneObject>, s: FlipSettings): set<SceneObject>
  {
    set o | o in Targets(selected, s)
  }

  predicate IsArmature(o: SceneObject)
  {
    o.kind == Armature
  }

  predicate NotArmature(o: SceneObject)
  {
    o.kind != Armature
  }

  /** `[obj for obj in targets if obj.type == "ARMATURE"]`. */
  function Armatures(ts: seq<SceneObject>): seq<SceneObject>
  {
    Keep(ts, IsArmature)
  }

  /** `[obj for obj in targets if obj.type != "ARMATURE"]`. */
  function Others(ts: seq<SceneObject>): seq<SceneObject>
  {
    Keep(ts, NotArmature)
  }

  /** The two lists split the targets: together they hold each target exactly once. */
  lemma Partition(ts: seq<SceneObject>)
    ensures multiset(Armatures(ts)) + multiset(Others(ts)) == multiset(ts)
    ensures |Armatures(ts)| + |Others(ts)| == |ts|
  {
    KeepSplit(ts, IsArmature, NotArmature);
    assert |multiset(Armatures(ts))| == |Armatures(ts)| && |multiset(Others(ts))| == |Others(ts)|;
    assert |multiset(ts)| == |ts|;
  }

  /** What `object_flip` leaves as the scale of `o`, given its scale before. */
  function FlipState(o: SceneObject, scale0: Vec3, axis: nat): (v: Vec3)
    requires axis < 3
    ensures Flippable(o) ==> v.Get(axis) == -scale0.Get(axis)
    ensures forall b :: 0 <= b < 3 && (b != axis || !Flippable(o)) ==> v.Get(b) == scale0.Get(b)
  {
    if Flippable(o) then Flipped(scale0, axis) else scale0
  }

  /** Flipping the same object twice on the same axis gives its scale back. */
  lemma FlipStateTwice(o: SceneObject, v: Vec3, axis: nat)
    requires axis < 3
    ensures FlipState(o, FlipState(o, v, axis), axis) == v
  {
    if Flippable(o) {
      FlippedTwice(v, axis);
    }
  }

  /** Each object's scale once the flip loop has covered `done`. */
  ghost predicate FlippedSoFar(objs: set<SceneObject>, done: seq<SceneObject>, scales0: map<SceneObject, Vec3>, axis: nat)
    requires axis < 3
    reads objs
  {
    && objs <= scales0.Keys
    && forall o :: o in objs ==> o.scale == (if o in done then FlipState(o, scales0[o], axis) else scales0[o])
  }

  /** The loop `for obj in objects: object_flip(obj, axis_index)` over distinct objects. */
  method FlipObjects(objs: seq<SceneObject>, axis: nat, ghost frame: set<SceneObject>)
    requires axis < 3 && Distinct(objs)
    requires forall i :: 0 <= i < |objs| ==> objs[i] in frame
    modifies frame
    ensures forall o :: o in frame ==> o.scale == (if o in objs then FlipState(o, old(o.scale), axis) else old(o.scale))
    ensures forall o :: o in frame ==> o.location == old(o.location) && o.selected == old(o.selected)
  {
    ghost var scales0 := map o | o in frame :: o.scale;
    var i := 0;
    while i < |objs|
      invariant 0 <= i <= |objs|
      invariant FlippedSoFar(frame, objs[..i], scales0, axis)
      invariant forall o :: o in frame ==> o.location == old(o.location) && o.selected == old(o.selected)
    {
      var obj := objs[i];
      DistinctNotBefore(objs, i);
      ObjectFlip(obj, axis);
      assert objs[..i + 1] == objs[..i] + [obj];
      i := i + 1;
    }
    assert objs[..i] == objs;
  }

  /** The objects to mirror hold no repeats, lie in the flip frame, and are exactly its non-armatures. */
  lemma OthersOfTargets(selected: seq<SceneObject>, s: FlipSettings)
    ensures var others := Others(Targets(selected, s));
      && Distinct(others)
      && (forall i :: 0 <= i < |others| ==> others[i] in TargetSet(selected, s))
      && forall o :: o in TargetSet(selected, s) ==> (o in others <==> o.kind != Armature)
  {
    ScopeObjectsShape(selected, s.includeChildren, s.scope, s.collection, s.includeSubcollections);
    var ts := Targets(selected, s);
    var notArmature := NotArmature;
    KeepDistinct(ts, notArmature);
    forall o | o in ts ensures o in Others(ts) <==> o.kind != Armature {
      KeepMember(ts, notArmature, o);
    }
    forall i | 0 <= i < |Others(ts)| ensures Others(ts)[i] in TargetSet(selected, s) {
      KeepMember(ts, notArmature, Others(ts)[i]);
    }
  }

  /**
   * `ANIMATIONQOL_OT_flip_smart.execute`: cancel without targets; otherwise
   * paste flipped poses on the armatures and mirror every other target.
   */
  method FlipSmart(selected: seq<SceneObject>, s: FlipSettings)
    returns (status: Status, armatureCount: nat, objectCount: nat)
    requires forall o :: o in TargetSet(selected, s) ==> allocated(o)
    modifies TargetSet(selected, s)
    ensures var ts := Targets(selected, s);
      && (status == Cancelled <==> ts == [])
      && armatureCount == |Armatures(ts)| && objectCount == |Others(ts)|
      && forall o :: o in TargetSet(selected, s) ==>
           o.scale == (if o.kind != Armature then FlipState(o, old(o.scale), AxisIndex(s.axis)) else old(o.scale))
    ensures forall o :: o in TargetSet(selected, s) ==> o.location == old(o.location) && o.selected == old(o.selected)
  {
    var axisIndex := AxisIndex(s.axis);
    var targets := GatherScopeObjects(selected, s.includeChildren, s.scope, s.collection, s.includeSubcollections);
    if targets == [] {
      return Cancelled, 0, 0;
    }
    var armatures := Armatures(targets);
    var others := Others(targets);
    OthersOfTargets(selected, s);
    FlipObjects(others, axisIndex, TargetSet(selected, s));
    return Finished, |armatures|, |others|;
  }

  /** `ANIMATIONQOL_OT_flip_pose_only.execute`: cancel without armatures; object scales are untouched. */
  method FlipPoseOnly(selected: seq<SceneObject>, s: FlipSettings) returns (status: Status, armatureCount: nat)
    ensures var armatures := Armatures(Targets(selected, s));
      && (status == Cancelled <==> armatures == [])
      && armatureCount == |armatures|
  {
    var targets := GatherScopeObjects(selected, s.includeChildren, s.scope, s.collection, s.includeSubcollections);
    var armatures := Armatures(targets);
    if armatures == [] {
      return Cancelled, 0;
    }
    return Finished, |armatures|;
  }

  /** `ANIMATIONQOL_OT_flip_objects_only.execute`: cancel without non-armatures; otherwise mirror them. */
  method FlipObjectsOnly(selected: seq<SceneObject>, s: FlipSettings) returns (status: Status, objectCount: nat)
    requires forall o :: o in TargetSet(selected, s) ==> allocated(o)
    modifies TargetSet(selected, s)
    ensures var others := Others(Targets(selected, s));
      && (status == Cancelled <==> others == [])
      && objectCount == |others|
      && forall o :: o in TargetSet(selected, s) ==>
           o.scale == (if o.kind != Armature then FlipState(o, old(o.scale), AxisIndex(s.axis)) else old(o.scale))
    ensures forall o :: o in TargetSet(selected, s) ==> o.location == old(o.location) && o.selected == old(o.selected)
  {
    var axisIndex := AxisIndex(s.axis);
    var targets := GatherScopeObjects(selected, s.includeChildren, s.scope, s.collection, s.includeSubcollections);
    var objects := Others(targets);
    OthersOfTargets(selected, s);
    if objects == [] {
      return Cancelled, 0;
    }
    FlipObjects(objects, axisIndex, TargetSet(selected, s));
    return Finished, |objects|;
  }
}
