/**
 * The slice of the host application's scene graph that the operators read
 * and write. Host-owned datablocks whose fields the operators assign are
 * classes; the fields the operators only read are `const`.
 */
module HostData {
  import opened Common

  /** Keyframe interpolation modes (`Keyframe.interpolation`). */
  datatype Interpolation = Constant | Linear | Bezier | OtherInterpolation

  /** Bezier handle types (`handle_left_type` / `handle_right_type`). */
  datatype HandleType = Free | Aligned | Vector | Auto | AutoClamped

  /**
   * One keyframe point: `co`, `handle_left`, `handle_right`, the control-point
   * selection flag, the interpolation mode and both handle types. Times are
   * real frame numbers; no floating-point rounding is modelled.
   */
  datatype Keyframe = Keyframe(
    x: real, y: real,
    hlX: real, hlY: real,
    hrX: real, hrY: real,
    selected: bool,
    interpolation: Interpolation,
    hlType: HandleType, hrType: HandleType)

  /** F-curve modifier kinds; only NOISE is ever inspected. */
  datatype ModifierKind = Noise | OtherModifier

  /** An F-curve modifier with the four parameters the noise randomiser writes. */
  datatype Modifier = Modifier(kind: ModifierKind, phase: real, offset: real, strength: real, scale: real)

  /** The ID datablock owning a curve: its pointer (`as_pointer()`) and its name. */
  datatype IdRef = IdRef(pointer: int, name: string)

  /** The de-duplication key `(owner, data_path, array_index)` of a curve. */
  datatype CurveKey = CurveKey(owner: int, dataPath: string, arrayIndex: int)

  /** An animation curve. */
  class FCurve {
    /** `id_data`, absent for a curve that no ID owns. */
    const owner: Option<IdRef>
    /** Python's `id(fcurve)`, used as the owner part of the key when there is no ID. */
    const selfId: int
    const dataPath: string
    const arrayIndex: int
    /** Name of the action group the curve sits in, if any. */
    const groupName: Option<string>
    const lock: bool
    var keys: seq<Keyframe>
    var modifiers: seq<Modifier>
    /** How many times `fcurve.update()` has been called on this curve. */
    var updates: nat
  }

  /** Object types (`Object.type`) the operators distinguish. */
  datatype ObjectKind =
    | Mesh | CurveObject | Surface | Font | Meta | GPencil | Empty
    | Armature | Camera | Light | LightProbe | OtherKind

  /** A 3-vector (scale, location, a picked point). */
  datatype Vec3 = Vec3(x: real, y: real, z: real)
  {
    function Get(axis: nat): real
      requires axis < 3
    {
      if axis == 0 then x else if axis == 1 then y else z
    }

    function Set(axis: nat, v: real): Vec3
      requires axis < 3
    {
      if axis == 0 then this.(x := v) else if axis == 1 then this.(y := v) else this.(z := v)
    }

    function Plus(o: Vec3): Vec3 { Vec3(x + o.x, y + o.y, z + o.z) }

    function Minus(o: Vec3): Vec3 { Vec3(x - o.x, y - o.y, z - o.z) }

    /** The squared Euclidean length, so that length thresholds need no square root. */
    function LengthSquared(): real { x * x + y * y + z * z }
  }

  /** A shape key block (`key_blocks[name]`): its keyed frames and its current value. */
  class ShapeKeyBlock {
    /** Frame -> keyed value, as `keyframe_insert("value", frame=…)` leaves them. */
    var keys: map<int, real>
    var value: real
  }

  /** A pose bone and the curves of its armature's action that animate it. */
  class PoseBone {
    const name: string
    const curves: seq<FCurve>
  }

  /** A scene object. */
  class SceneObject {
    const name: string
    const kind: ObjectKind
    /** `obj.library` is set: the object is linked from another file. */
    const linked: bool
    /** `obj.hide_get()`. */
    const hidden: bool
    const hideRender: bool
    /** `obj.visible_get(view_layer=…)`. */
    const viewportVisible: bool
    /** `obj.children_recursive`. */
    const childrenRecursive: seq<SceneObject>
    /** Curves of `animation_data.action` (empty without animation data or action). */
    const actionCurves: seq<FCurve>
    /** Curves of the shape-key datablock's action. */
    const shapeKeyCurves: seq<FCurve>
    /** `obj.data.shape_keys` is present. */
    const hasShapeKeys: bool
    /** `obj.data.shape_keys.key_blocks`, by name. */
    const shapeKeyBlocks: map<string, ShapeKeyBlock>
    var scale: Vec3
    var location: Vec3
    var selected: bool
  }

  /** A collection: its own objects and its child collections. */
  datatype Collection = Collection(objects: seq<SceneObject>, children: seq<Collection>)

  /** No object occurs twice in `s`. */
  predicate Distinct<T(==)>(s: seq<T>)
  {
    forall i, j :: 0 <= i < j < |s| ==> s[i] != s[j]
  }

  /** In a sequence without repeats, no element occurs before its own position. */
  lemma DistinctNotBefore<T>(s: seq<T>, i: nat)
    requires Distinct(s) && i < |s|
    ensures s[i] !in s[..i]
  {
    forall j | 0 <= j < i ensures s[..i][j] != s[i] {
      assert s[..i][j] == s[j];
    }
  }

  /** A Python list comprehension `[x for x in s if keep(x)]`. */
  function Keep<T>(s: seq<T>, keep: T -> bool): (r: seq<T>)
    ensures |r| <= |s|
    ensures forall k :: 0 <= k < |r| ==> keep(r[k])
  {
    if s == [] then []
    else Keep(s[..|s| - 1], keep) + (if keep(s[|s| - 1]) then [s[|s| - 1]] else [])
  }

  /** The comprehension keeps exactly the elements that pass the test. */
  lemma {:induction false} KeepMember<T>(s: seq<T>, keep: T -> bool, x: T)
    ensures x in Keep(s, keep) <==> x in s && keep(x)
  {
    if s != [] {
      var n := |s| - 1;
      KeepMember(s[..n], keep, x);
      assert s == s[..n] + [s[n]];
    }
  }

  /** Two complementary comprehensions split the list: together they hold each element exactly once. */
  lemma {:induction false} KeepSplit<T>(s: seq<T>, keep: T -> bool, drop: T -> bool)
    requires forall x :: drop(x) == !keep(x)
    ensures multiset(Keep(s, keep)) + multiset(Keep(s, drop)) == multiset(s)
  {
    if s != [] {
      var n := |s| - 1;
      var init := s[..n];
      KeepSplit(init, keep, drop);
      assert s == init + [s[n]];
      assert multiset(s) == multiset(init) + multiset{s[n]};
    }
  }

  /** Filtering keeps the lack of repeats. */
  lemma {:induction false} KeepDistinct<T>(s: seq<T>, keep: T -> bool)
    requires Distinct(s)
    ensures Distinct(Keep(s, keep))
  {
    if s != [] {
      var n := |s| - 1;
      var init := s[..n];
      assert Distinct(init) by {
        forall i, j | 0 <= i < j < |init| ensures init[i] != init[j] {
          assert init[i] == s[i] && init[j] == s[j];
        }
      }
      KeepDistinct(init, keep);
      if keep(s[n]) {
        DistinctNotBefore(s, n);
        KeepMember(init, keep, s[n]);
        var r := Keep(s, keep);
        forall i, j | 0 <= i < j < |r| ensures r[i] != r[j] {
          if j < |r| - 1 {
            assert r[i] == Keep(init, keep)[i] && r[j] == Keep(init, keep)[j];
          } else {
            assert r[i] in Keep(init, keep);
          }
        }
      }
    }
  }
}
