/**
 * The keyframe list engine shared by every animation operator: which keys a
 * shift touches, the in-place shift itself, curve gathering with lock
 * filtering and de-duplication, and `sorted_range`.
 */
module Animation {
  import opened Common
  import opened HostData

  // ---------------------------------------------------------------------------
  // Curve identity and per-object curves
  // ---------------------------------------------------------------------------

  /** `_fcurve_key`: the owner pointer (or the curve's own identity), data path and index. */
  function FcurveKey(c: FCurve): (k: CurveKey)
    ensures k.dataPath == c.dataPath && k.arrayIndex == c.arrayIndex
    ensures k.owner == (if c.owner.Some? then c.owner.value.pointer else c.selfId)
  {
    CurveKey(if c.owner.Some? then c.owner.value.pointer else c.selfId, c.dataPath, c.arrayIndex)
  }

  /** `iter_fcurves_for_object`: action curves, then shape-key curves when asked for. */
  function ObjectCurves(obj: SceneObject?, includeShapeKeys: bool): seq<FCurve>
  {
    if obj == null then []
    else obj.actionCurves + (if includeShapeKeys then obj.shapeKeyCurves else [])
  }

  lemma ObjectCurvesOrder(obj: SceneObject?, includeShapeKeys: bool)
    ensures obj == null ==> ObjectCurves(obj, includeShapeKeys) == []
    ensures obj != null ==>
      && ObjectCurves(obj, includeShapeKeys)[..|obj.actionCurves|] == obj.actionCurves
      && ObjectCurves(obj, includeShapeKeys)[|obj.actionCurves|..]
         == (if includeShapeKeys then obj.shapeKeyCurves else [])
  {
  }

  /** The curves of every object in `objs`, object by object. */
  function FlatCurves(objs: seq<SceneObject?>, includeShapeKeys: bool): (r: seq<FCurve>)
    ensures forall c :: c in r ==> exists o :: o in objs && c in ObjectCurves(o, includeShapeKeys)
  {
    if objs == [] then []
    else FlatCurves(objs[..|objs| - 1], includeShapeKeys) + ObjectCurves(objs[|objs| - 1], includeShapeKeys)
  }

  lemma {:induction false} FlatCurvesMember(objs: seq<SceneObject?>, includeShapeKeys: bool, c: FCurve)
    ensures c in FlatCurves(objs, includeShapeKeys) <==>
      exists o :: o in objs && c in ObjectCurves(o, includeShapeKeys)
  {
    if objs != [] {
      var init := objs[..|objs| - 1];
      FlatCurvesMember(init, includeShapeKeys, c);
      assert objs == init + [objs[|objs| - 1]];
    }
  }

  // ---------------------------------------------------------------------------
  // gather_target_fcurves
  // ---------------------------------------------------------------------------

  /** The keys of the curves in `s`. */
  function KeysOf(s: seq<FCurve>): set<CurveKey>
  {
    set c | c in s :: FcurveKey(c)
  }

  /** No two curves of `s` share a de-duplication key. */
  predicate KeysDistinct(s: seq<FCurve>)
  {
    forall i, j :: 0 <= i < j < |s| ==> FcurveKey(s[i]) != FcurveKey(s[j])
  }

  lemma KeysDistinctImpliesDistinct(s: seq<FCurve>)
    requires KeysDistinct(s)
    ensures Distinct(s)
  {
  }

  /**
   * One pass of the gathering loop over `cands`: skip locked curves and curves
   * whose key is already in `seen`, keep the rest in order.
   */
  function Collect(cands: seq<FCurve>, seen: set<CurveKey>): seq<FCurve>
    decreases |cands|
  {
    if cands == [] then []
    else
      var c := cands[0];
      if c.lock || FcurveKey(c) in seen then Collect(cands[1..], seen)
      else [c] + Collect(cands[1..], seen + {FcurveKey(c)})
  }

  /**
   * What one gathering pass keeps: only unlocked input curves with unseen,
   * pairwise different keys, and every unlocked input curve is represented
   * (its key was seen before or is kept).
   */
  lemma {:induction false} CollectSound(cands: seq<FCurve>, seen: set<CurveKey>)
    ensures forall c :: c in Collect(cands, seen) ==> c in cands && !c.lock && FcurveKey(c) !in seen
    ensures KeysDistinct(Collect(cands, seen))
    ensures forall c :: c in cands && !c.lock ==>
      FcurveKey(c) in seen || FcurveKey(c) in KeysOf(Collect(cands, seen))
    decreases |cands|
  {
    if cands != [] {
      var c := cands[0];
      if c.lock || FcurveKey(c) in seen {
        CollectSound(cands[1..], seen);
      } else {
        CollectSound(cands[1..], seen + {FcurveKey(c)});
        var rest := Collect(cands[1..], seen + {FcurveKey(c)});
        assert Collect(cands, seen) == [c] + rest;
        assert KeysOf([c] + rest) == {FcurveKey(c)} + KeysOf(rest);
      }
    }
  }

  lemma {:induction false} CollectConcat(a: seq<FCurve>, b: seq<FCurve>, seen: set<CurveKey>)
    ensures Collect(a + b, seen) == Collect(a, seen) + Collect(b, seen + KeysOf(Collect(a, seen)))
    decreases |a|
  {
    if a == [] {
      assert a + b == b;
      assert Collect(a, seen) == [];
      assert KeysOf([]) == {};
      assert seen + KeysOf(Collect(a, seen)) == seen;
    } else {
      assert (a + b)[1..] == a[1..] + b;
      var c := a[0];
      if c.lock || FcurveKey(c) in seen {
        CollectConcat(a[1..], b, seen);
      } else {
        var s2 := seen + {FcurveKey(c)};
        CollectConcat(a[1..], b, s2);
        assert Collect(a, seen) == [c] + Collect(a[1..], s2);
        assert KeysOf([c] + Collect(a[1..], s2)) == {FcurveKey(c)} + KeysOf(Collect(a[1..], s2));
        assert seen + KeysOf(Collect(a, seen)) == s2 + KeysOf(Collect(a[1..], s2));
      }
    }
  }

  /** The host's view of what is selected. */
  datatype AnimContext = AnimContext(
    /** `context.selected_editable_fcurves` (empty outside the Graph Editor). */
    selectedEditable: seq<FCurve>,
    selectedObjects: seq<SceneObject>,
    active: SceneObject?)

  /** The selected objects, followed by the active object when it is not one of them. */
  function ContextObjects(ctx: AnimContext): (objs: seq<SceneObject?>)
    ensures ctx.active != null && ctx.active !in ctx.selectedObjects ==>
      objs == ctx.selectedObjects + [ctx.active]
    ensures ctx.active == null || ctx.active in ctx.selectedObjects ==> objs == ctx.selectedObjects
  {
    var sel: seq<SceneObject?> := ctx.selectedObjects;
    if ctx.active != null && ctx.active !in ctx.selectedObjects then sel + [ctx.active] else sel
  }

  /** Every curve `gather_target_fcurves` could ever return for `ctx`. */
  ghost function CandidateCurves(ctx: AnimContext): set<FCurve>
  {
    set c | c in ctx.selectedEditable + FlatCurves(ContextObjects(ctx), true)
  }

  /** The specification of `gather_target_fcurves`. */
  function Gather(ctx: AnimContext, onlySelectedCurves: bool, includeShapeKeys: bool): seq<FCurve>
  {
    var sel := Collect(ctx.selectedEditable, {});
    if |sel| > 0 && onlySelectedCurves then sel
    else sel + Collect(FlatCurves(ContextObjects(ctx), includeShapeKeys), KeysOf(sel))
  }

  lemma ShapeKeyCurvesIncluded(objs: seq<SceneObject?>, c: FCurve)
    requires c in FlatCurves(objs, false)
    ensures c in FlatCurves(objs, true)
  {
    FlatCurvesMember(objs, false, c);
    FlatCurvesMember(objs, true, c);
  }

  /** Gathered curves are unlocked, unique by key, and come from the context. */
  lemma GatherWellFormed(ctx: AnimContext, onlySelectedCurves: bool, includeShapeKeys: bool)
    ensures forall c :: c in Gather(ctx, onlySelectedCurves, includeShapeKeys) ==> !c.lock
    ensures KeysDistinct(Gather(ctx, onlySelectedCurves, includeShapeKeys))
    ensures Distinct(Gather(ctx, onlySelectedCurves, includeShapeKeys))
    ensures forall c :: c in Gather(ctx, onlySelectedCurves, includeShapeKeys) ==> c in CandidateCurves(ctx)
  {
    var sel := Collect(ctx.selectedEditable, {});
    var objs := ContextObjects(ctx);
    var rest := Collect(FlatCurves(objs, includeShapeKeys), KeysOf(sel));
    var r := Gather(ctx, onlySelectedCurves, includeShapeKeys);
    CollectSound(ctx.selectedEditable, {});
    CollectSound(FlatCurves(objs, includeShapeKeys), KeysOf(sel));
    if !(|sel| > 0 && onlySelectedCurves) {
      assert r == sel + rest;
      forall i, j | 0 <= i < j < |r| ensures FcurveKey(r[i]) != FcurveKey(r[j]) {
        if j >= |sel| && i < |sel| {
          assert r[i] in sel;
          assert r[j] in rest;
        }
      }
    }
    forall c | c in r ensures c in CandidateCurves(ctx) {
      if c in rest && !(|sel| > 0 && onlySelectedCurves) {
        if !includeShapeKeys { ShapeKeyCurvesIncluded(objs, c); }
      }
    }
    KeysDistinctImpliesDistinct(r);
  }

  /**
   * With a non-empty unlocked selection and `only_selected_curves`, the result
   * is exactly the selected curves, de-duplicated, in selection order; otherwise
   * the selected curves come first and object curves follow.
   */
  lemma GatherSelectionFirst(ctx: AnimContext, onlySelectedCurves: bool, includeShapeKeys: bool)
    ensures var sel := Collect(ctx.selectedEditable, {});
      && (|sel| > 0 && onlySelectedCurves ==> Gather(ctx, onlySelectedCurves, includeShapeKeys) == sel)
      && Gather(ctx, onlySelectedCurves, includeShapeKeys)[..|sel|] == sel
  {
  }

  /**
   * When `only_selected_curves` returned nothing, asking again without it
   * also returns nothing: the second call in the offset operators never finds
   * more curves than the first.
   */
  lemma GatherFallbackRedundant(ctx: AnimContext, includeShapeKeys: bool)
    ensures Gather(ctx, true, includeShapeKeys) == [] ==> Gather(ctx, false, includeShapeKeys) == []
  {
    var sel := Collect(ctx.selectedEditable, {});
    if |sel| > 0 {
      assert Gather(ctx, true, includeShapeKeys)[0] == sel[0];
    }
  }

  /** One gathering loop: append the unseen unlocked curves of `cands` to `result`. */
  method CollectInto(cands: seq<FCurve>, result0: seq<FCurve>, seen0: set<CurveKey>)
    returns (result: seq<FCurve>, seen: set<CurveKey>)
    requires seen0 == KeysOf(result0)
    ensures result == result0 + Collect(cands, seen0)
    ensures seen == KeysOf(result)
  {
    result, seen := result0, seen0;
    var i := 0;
    while i < |cands|
      invariant 0 <= i <= |cands|
      invariant seen == KeysOf(result)
      invariant result + Collect(cands[i..], seen) == result0 + Collect(cands, seen0)
    {
      var fcurve := cands[i];
      assert cands[i..][1..] == cands[i + 1..];
      if !fcurve.lock {
        var key := FcurveKey(fcurve);
        if key !in seen {
          assert KeysOf(result + [fcurve]) == KeysOf(result) + {key};
          result := result + [fcurve];
          seen := seen + {key};
        }
      }
      i := i + 1;
    }
  }

  lemma KeysOfConcat(a: seq<FCurve>, b: seq<FCurve>)
    ensures KeysOf(a + b) == KeysOf(a) + KeysOf(b)
  {
    assert forall c :: c in a + b <==> c in a || c in b;
  }

  /** One object of the gathering loop extends the specification by that object's curves. */
  lemma GatherStep(objects: seq<SceneObject?>, i: nat, includeShapeKeys: bool, sel: seq<FCurve>,
                   result: seq<FCurve>, next: seq<FCurve>)
    requires i < |objects|
    requires result == sel + Collect(FlatCurves(objects[..i], includeShapeKeys), KeysOf(sel))
    requires next == result + Collect(ObjectCurves(objects[i], includeShapeKeys), KeysOf(result))
    ensures next == sel + Collect(FlatCurves(objects[..i + 1], includeShapeKeys), KeysOf(sel))
  {
    var before := FlatCurves(objects[..i], includeShapeKeys);
    var here := ObjectCurves(objects[i], includeShapeKeys);
    assert objects[..i + 1][..i] == objects[..i];
    assert FlatCurves(objects[..i + 1], includeShapeKeys) == before + here;
    var ks := KeysOf(sel);
    var cb := Collect(before, ks);
    var ch := Collect(here, ks + KeysOf(cb));
    KeysOfConcat(sel, cb);
    assert Collect(here, KeysOf(result)) == ch;
    CollectConcat(before, here, ks);
    CurvesAssoc(sel, cb, ch);
  }

  lemma CurvesAssoc(a: seq<FCurve>, b: seq<FCurve>, c: seq<FCurve>)
    ensures (a + b) + c == a + (b + c)
  {
  }

  /** `gather_target_fcurves`. */
  method GatherTargetFcurves(ctx: AnimContext, onlySelectedCurves: bool, includeShapeKeys: bool)
    returns (result: seq<FCurve>)
    ensures result == Gather(ctx, onlySelectedCurves, includeShapeKeys)
  {
    var seen: set<CurveKey>;
    assert KeysOf([]) == {};
    result, seen := CollectInto(ctx.selectedEditable, [], {});
    assert result == Collect(ctx.selectedEditable, {});
    var sel := result;
    if |result| > 0 && onlySelectedCurves {
      return;
    }
    var objects: seq<SceneObject?> := ctx.selectedObjects;
    var active := ctx.active;
    if active != null && active !in ctx.selectedObjects {
      objects := objects + [active];
    }
    assert objects == ContextObjects(ctx);
    result := GatherObjects(objects, includeShapeKeys, sel, seen);
  }

  /** The object loop of `gather_target_fcurves`, after the selected curves `sel`. */
  method GatherObjects(objects: seq<SceneObject?>, includeShapeKeys: bool, sel: seq<FCurve>, seen0: set<CurveKey>)
    returns (result: seq<FCurve>)
    requires seen0 == KeysOf(sel)
    ensures result == sel + Collect(FlatCurves(objects, includeShapeKeys), KeysOf(sel))
  {
    result := sel;
    var seen := seen0;
    assert objects[..0] == [];
    var i := 0;
    while i < |objects|
      invariant 0 <= i <= |objects|
      invariant result == sel + Collect(FlatCurves(objects[..i], includeShapeKeys), KeysOf(sel))
      invariant seen == KeysOf(result)
    {
      ghost var prev := result;
      result, seen := CollectInto(ObjectCurves(objects[i], includeShapeKeys), result, seen);
      GatherStep(objects, i, includeShapeKeys, sel, prev, result);
      i := i + 1;
    }
    assert objects[..i] == objects;
  }

  // ---------------------------------------------------------------------------
  // shift_keyframes
  // ---------------------------------------------------------------------------

  /** A key is affected by a shift when all keys move or it is selected. */
  predicate Affected(k: Keyframe, onlySelected: bool)
  {
    !onlySelected || k.selected
  }

  /** A key moved by `delta` frames: its time and both handle times move, nothing else. */
  function ShiftKey(k: Keyframe, delta: int): Keyframe
  {
    k.(x := k.x + delta as real, hlX := k.hlX + delta as real, hrX := k.hrX + delta as real)
  }

  /** The keys after `shift_keyframes(…, delta, only_selected)`. */
  function ShiftedKeys(keys: seq<Keyframe>, delta: int, onlySelected: bool): (r: seq<Keyframe>)
    ensures |r| == |keys|
  {
    seq(|keys|, i requires 0 <= i < |keys| =>
      if Affected(keys[i], onlySelected) then ShiftKey(keys[i], delta) else keys[i])
  }

  /** How many keys a shift affects. */
  function AffectedCount(keys: seq<Keyframe>, onlySelected: bool): (n: nat)
    ensures n <= |keys|
  {
    if keys == [] then 0
    else AffectedCount(keys[..|keys| - 1], onlySelected)
         + (if Affected(keys[|keys| - 1], onlySelected) then 1 else 0)
  }

  /** Exactly the affected keys move, by exactly `delta` on all three times. */
  lemma ShiftedKeysPointwise(keys: seq<Keyframe>, delta: int, onlySelected: bool, i: nat)
    requires i < |keys|
    ensures var k, k' := keys[i], ShiftedKeys(keys, delta, onlySelected)[i];
      && (Affected(k, onlySelected) ==>
            k'.x == k.x + delta as real && k'.hlX == k.hlX + delta as real && k'.hrX == k.hrX + delta as real)
      && (!Affected(k, onlySelected) ==> k' == k)
      && k'.y == k.y && k'.hlY == k.hlY && k'.hrY == k.hrY && k'.selected == k.selected
      && k'.interpolation == k.interpolation && k'.hlType == k.hlType && k'.hrType == k.hrType
  {
  }

  /** Without `only_selected` every key is affected. */
  lemma {:induction false} AffectedCountAll(keys: seq<Keyframe>)
    ensures AffectedCount(keys, false) == |keys|
  {
    if keys != [] { AffectedCountAll(keys[..|keys| - 1]); }
  }

  /** With `only_selected`, the count is the number of selected keys. */
  lemma {:induction false} AffectedCountSelected(keys: seq<Keyframe>)
    ensures AffectedCount(keys, true) == |set i | 0 <= i < |keys| && keys[i].selected|
  {
    if keys != [] {
      var n := |keys| - 1;
      var init := keys[..n];
      AffectedCountSelected(init);
      var s0 := set i | 0 <= i < |init| && init[i].selected;
      var s1 := set i | 0 <= i < |keys| && keys[i].selected;
      if keys[n].selected {
        assert s1 == s0 + {n};
      } else {
        assert s1 == s0;
      }
    }
  }

  lemma ShiftPrefix(keys: seq<Keyframe>, delta: int, onlySelected: bool, n: nat)
    requires n <= |keys|
    ensures ShiftedKeys(keys, delta, onlySelected)[..n] == ShiftedKeys(keys[..n], delta, onlySelected)
  {
  }

  /** Shifting never changes which keys are selected, hence how many keys a later shift affects. */
  lemma {:induction false} AffectedCountShifted(keys: seq<Keyframe>, delta: int, onlySelected: bool)
    ensures AffectedCount(ShiftedKeys(keys, delta, onlySelected), onlySelected) == AffectedCount(keys, onlySelected)
  {
    if keys != [] {
      var n := |keys| - 1;
      var s := ShiftedKeys(keys, delta, onlySelected);
      ShiftPrefix(keys, delta, onlySelected, n);
      AffectedCountShifted(keys[..n], delta, onlySelected);
      assert s[..n] == ShiftedKeys(keys[..n], delta, onlySelected);
    }
  }

  /** Two shifts compose into one by the sum of the deltas. */
  lemma ShiftCompose(keys: seq<Keyframe>, a: int, b: int, onlySelected: bool)
    ensures ShiftedKeys(ShiftedKeys(keys, a, onlySelected), b, onlySelected) == ShiftedKeys(keys, a + b, onlySelected)
  {
    var l := ShiftedKeys(ShiftedKeys(keys, a, onlySelected), b, onlySelected);
    var r := ShiftedKeys(keys, a + b, onlySelected);
    forall i | 0 <= i < |keys| ensures l[i] == r[i] {
      ShiftedKeysPointwise(keys, a, onlySelected, i);
    }
  }

  /** A zero shift changes nothing; a shift by `-delta` undoes a shift by `delta`. */
  lemma ShiftInverse(keys: seq<Keyframe>, delta: int, onlySelected: bool)
    ensures ShiftedKeys(keys, 0, onlySelected) == keys
    ensures ShiftedKeys(ShiftedKeys(keys, delta, onlySelected), -delta, onlySelected) == keys
  {
    ShiftCompose(keys, delta, -delta, onlySelected);
    assert ShiftedKeys(keys, 0, onlySelected) == keys;
  }

  /** A zero delta leaves every curve of `cs` as it is. */
  lemma ShiftNothing(cs: set<FCurve>, onlySelected: bool)
    ensures forall c :: c in cs ==> c.keys == ShiftedKeys(c.keys, 0, onlySelected)
  {
    forall c | c in cs ensures c.keys == ShiftedKeys(c.keys, 0, onlySelected) {
      ShiftInverse(c.keys, 0, onlySelected);
    }
  }

  /** `shift_keyframes`: move the affected keys of `fcurve` in place and count them. */
  method ShiftKeyframes(fcurve: FCurve, frameDelta: int, onlySelected: bool) returns (moved: nat)
    modifies fcurve
    ensures fcurve.keys == ShiftedKeys(old(fcurve.keys), frameDelta, onlySelected)
    ensures moved == AffectedCount(old(fcurve.keys), onlySelected)
    ensures fcurve.updates == old(fcurve.updates) + (if moved > 0 then 1 else 0)
    ensures fcurve.modifiers == old(fcurve.modifiers)
  {
    ghost var keys0 := fcurve.keys;
    moved := 0;
    var i := 0;
    while i < |fcurve.keys|
      invariant 0 <= i <= |fcurve.keys| == |keys0|
      invariant forall j :: 0 <= j < |keys0| ==>
        fcurve.keys[j] == if j < i && Affected(keys0[j], onlySelected) then ShiftKey(keys0[j], frameDelta) else keys0[j]
      invariant moved == AffectedCount(keys0[..i], onlySelected)
      invariant fcurve.updates == old(fcurve.updates) && fcurve.modifiers == old(fcurve.modifiers)
    {
      assert keys0[..i + 1][..i] == keys0[..i];
      var key := fcurve.keys[i];
      if Affected(key, onlySelected) {
        fcurve.keys := fcurve.keys[i := ShiftKey(key, frameDelta)];
        moved := moved + 1;
      }
      i := i + 1;
    }
    assert keys0[..i] == keys0;
    assert fcurve.keys == ShiftedKeys(keys0, frameDelta, onlySelected);
    if moved > 0 {
      fcurve.updates := fcurve.updates + 1;
    }
  }

  // ---------------------------------------------------------------------------
  // Curves an edit loop counts (motion hold, ease presets)
  // ---------------------------------------------------------------------------

  /** `keys` holds a key the pass would touch: the curve counts as edited by motion hold and ease presets. */
  predicate HasAffected(keys: seq<Keyframe>, onlySelected: bool)
  {
    exists j :: 0 <= j < |keys| && Affected(keys[j], onlySelected)
  }

  /** A curve has a key to touch exactly when `shift_keyframes` would count some key of it. */
  lemma {:induction false} HasAffectedCount(keys: seq<Keyframe>, onlySelected: bool)
    ensures HasAffected(keys, onlySelected) <==> AffectedCount(keys, onlySelected) > 0
  {
    if keys != [] {
      var init := keys[..|keys| - 1];
      HasAffectedCount(init, onlySelected);
      if HasAffected(keys, onlySelected) {
        var j :| 0 <= j < |keys| && Affected(keys[j], onlySelected);
        if j < |init| { assert init[j] == keys[j]; }
      }
      if HasAffected(init, onlySelected) {
        var j :| 0 <= j < |init| && Affected(init[j], onlySelected);
        assert keys[j] == init[j];
      }
    }
  }

  lemma HasAffectedSnoc(keys: seq<Keyframe>, i: nat, onlySelected: bool)
    requires i < |keys|
    ensures HasAffected(keys[..i + 1], onlySelected)
        <==> HasAffected(keys[..i], onlySelected) || Affected(keys[i], onlySelected)
  {
    var a, b := keys[..i], keys[..i + 1];
    if HasAffected(b, onlySelected) && !Affected(keys[i], onlySelected) {
      var j :| 0 <= j < |b| && Affected(b[j], onlySelected);
      assert a[j] == b[j];
    }
    if HasAffected(a, onlySelected) {
      var j :| 0 <= j < |a| && Affected(a[j], onlySelected);
      assert b[j] == a[j];
    }
    if Affected(keys[i], onlySelected) {
      assert b[i] == keys[i];
    }
  }

  /** How many of the key lists hold a key to touch, i.e. how many curves count as edited. */
  function EditedCount(lists: seq<seq<Keyframe>>, onlySelected: bool): (n: nat)
    ensures n <= |lists|
  {
    if lists == [] then 0
    else
      EditedCount(lists[..|lists| - 1], onlySelected)
      + (if HasAffected(lists[|lists| - 1], onlySelected) then 1 else 0)
  }

  lemma EditedCountSnoc(lists: seq<seq<Keyframe>>, l: seq<Keyframe>, onlySelected: bool)
    ensures EditedCount(lists + [l], onlySelected)
         == EditedCount(lists, onlySelected) + (if HasAffected(l, onlySelected) then 1 else 0)
  {
    assert (lists + [l])[..|lists|] == lists;
  }

  /** No curve counts as edited exactly when none of them has a key to touch. */
  lemma {:induction false} EditedCountZero(lists: seq<seq<Keyframe>>, onlySelected: bool)
    ensures EditedCount(lists, onlySelected) == 0
        <==> forall j :: 0 <= j < |lists| ==> !HasAffected(lists[j], onlySelected)
  {
    if lists != [] {
      var init := lists[..|lists| - 1];
      EditedCountZero(init, onlySelected);
      assert forall j :: 0 <= j < |init| ==> init[j] == lists[j];
    }
  }

  /** The keys of each curve of `fs`, in order. */
  ghost function CurveKeys(fs: seq<FCurve>): (r: seq<seq<Keyframe>>)
    reads set c | c in fs
    ensures |r| == |fs| && forall j :: 0 <= j < |fs| ==> r[j] == fs[j].keys
  {
    seq(|fs|, j reads set c | c in fs requires 0 <= j < |fs| => fs[j].keys)
  }

  /** How many curves of `fs` had a targeted key in `keys0`. */
  ghost function CurvesWithTargets(fs: seq<FCurve>, keys0: map<FCurve, seq<Keyframe>>, onlySelectedKeys: bool): nat
  {
    if fs == [] then 0
    else
      var f := fs[|fs| - 1];
      CurvesWithTargets(fs[..|fs| - 1], keys0, onlySelectedKeys)
      + (if f in keys0 && HasAffected(keys0[f], onlySelectedKeys) then 1 else 0)
  }

  lemma CurvesWithTargetsSnoc(fs: seq<FCurve>, f: FCurve, keys0: map<FCurve, seq<Keyframe>>, onlySelectedKeys: bool)
    requires f in keys0
    ensures CurvesWithTargets(fs + [f], keys0, onlySelectedKeys)
         == CurvesWithTargets(fs, keys0, onlySelectedKeys) + (if HasAffected(keys0[f], onlySelectedKeys) then 1 else 0)
  {
    assert (fs + [f])[..|fs|] == fs;
  }

  /** Every candidate curve is an existing object: a requirement an operator states is never a restriction. */
  lemma CandidatesAllocated(ctx: AnimContext)
    ensures forall c :: c in CandidateCurves(ctx) ==> allocated(c)
  {
  }

  /** The gathered curves are distinct candidates. */
  lemma GatheredWithin(ctx: AnimContext, onlySelectedCurves: bool, includeShapeKeys: bool)
    ensures var fcurves := Gather(ctx, onlySelectedCurves, includeShapeKeys);
      Distinct(fcurves) && forall c :: c in fcurves ==> c in CandidateCurves(ctx)
  {
    GatherWellFormed(ctx, onlySelectedCurves, includeShapeKeys);
  }

  // ---------------------------------------------------------------------------
  // Shifting a list of curves (the loops of the offset and stagger operators)
  // ---------------------------------------------------------------------------

  /** One `shift_keyframes` call an operator loop makes: a curve and its delta. */
  datatype Job = Job(curve: FCurve, delta: int)

  ghost function JobCurves(jobs: seq<Job>): set<FCurve>
  {
    set j | j in jobs :: j.curve
  }

  /** The total delta the jobs apply to curve `c` (a curve may occur in several jobs). */
  function DeltaSum(jobs: seq<Job>, c: FCurve): int
  {
    if jobs == [] then 0
    else DeltaSum(jobs[..|jobs| - 1], c) + (if jobs[|jobs| - 1].curve == c then jobs[|jobs| - 1].delta else 0)
  }

  /** The keys all the jobs move, counted as the loops count them; zero-delta jobs are skipped. */
  function MovedSum(jobs: seq<Job>, onlySelected: bool): nat
    reads JobCurves(jobs)
  {
    if jobs == [] then 0
    else
      var j := jobs[|jobs| - 1];
      assert j in jobs;
      MovedSum(jobs[..|jobs| - 1], onlySelected)
      + (if j.delta == 0 then 0 else AffectedCount(j.curve.keys, onlySelected))
  }

  /** How many of the jobs on `c` have a non-zero delta, i.e. call `shift_keyframes` on it. */
  function ShiftCalls(jobs: seq<Job>, c: FCurve): nat
  {
    if jobs == [] then 0
    else
      var j := jobs[|jobs| - 1];
      ShiftCalls(jobs[..|jobs| - 1], c) + (if j.curve == c && j.delta != 0 then 1 else 0)
  }

  /** When no curve occurs twice, each curve moves by exactly its own job's delta. */
  lemma {:induction false} DeltaSumDistinct(jobs: seq<Job>, i: nat)
    requires i < |jobs|
    requires forall a, b :: 0 <= a < b < |jobs| ==> jobs[a].curve != jobs[b].curve
    ensures DeltaSum(jobs, jobs[i].curve) == jobs[i].delta
  {
    var n := |jobs| - 1;
    if i < n {
      DeltaSumDistinct(jobs[..n], i);
    } else {
      DeltaSumAbsent(jobs[..n], jobs[i].curve);
    }
  }

  /** A curve no job names does not move. */
  lemma {:induction false} DeltaSumAbsent(jobs: seq<Job>, c: FCurve)
    requires forall j :: j in jobs ==> j.curve != c
    ensures DeltaSum(jobs, c) == 0
  {
    if jobs != [] {
      assert jobs[|jobs| - 1] in jobs;
      DeltaSumAbsent(jobs[..|jobs| - 1], c);
    }
  }

  /** A curve no job names is never passed to `shift_keyframes`. */
  lemma {:induction false} ShiftCallsAbsent(jobs: seq<Job>, c: FCurve)
    requires forall j :: j in jobs ==> j.curve != c
    ensures ShiftCalls(jobs, c) == 0
  {
    if jobs != [] {
      assert jobs[|jobs| - 1] in jobs;
      ShiftCallsAbsent(jobs[..|jobs| - 1], c);
    }
  }

  /** When no curve occurs twice, a curve is passed to `shift_keyframes` once iff its job's delta is non-zero. */
  lemma {:induction false} ShiftCallsDistinct(jobs: seq<Job>, i: nat)
    requires i < |jobs|
    requires forall a, b :: 0 <= a < b < |jobs| ==> jobs[a].curve != jobs[b].curve
    ensures ShiftCalls(jobs, jobs[i].curve) == if jobs[i].delta != 0 then 1 else 0
  {
    var n := |jobs| - 1;
    if i < n {
      ShiftCallsDistinct(jobs[..n], i);
    } else {
      ShiftCallsAbsent(jobs[..n], jobs[i].curve);
    }
  }

  /**
   * The state of curve `c` after `done` ran, given its keys `keys0`, its
   * modifiers `mods0` and its update count `updates0` before: shifted by the
   * sum of its deltas, updated once per call when it has affected keys, its
   * modifiers as they were.
   */
  ghost predicate ShiftedBy(c: FCurve, done: seq<Job>, onlySelected: bool,
                            keys0: seq<Keyframe>, mods0: seq<Modifier>, updates0: nat)
    reads c
  {
    && c.keys == ShiftedKeys(keys0, DeltaSum(done, c), onlySelected)
    && c.modifiers == mods0
    && c.updates == updates0 + (if AffectedCount(keys0, onlySelected) > 0 then ShiftCalls(done, c) else 0)
  }

  /** One job of the loop: a zero delta is skipped, any other is one `shift_keyframes` call. */
  method RunJob(c: FCurve, delta: int, onlySelected: bool, ghost done: seq<Job>,
                ghost keys0: seq<Keyframe>, ghost mods0: seq<Modifier>, ghost updates0: nat)
    returns (moved: nat)
    requires ShiftedBy(c, done, onlySelected, keys0, mods0, updates0)
    modifies c
    ensures ShiftedBy(c, done + [Job(c, delta)], onlySelected, keys0, mods0, updates0)
    ensures moved == (if delta == 0 then 0 else AffectedCount(keys0, onlySelected))
  {
    ghost var post := done + [Job(c, delta)];
    assert post[..|done|] == done;
    ghost var ds := DeltaSum(done, c);
    AffectedCountShifted(keys0, ds, onlySelected);
    moved := 0;
    if delta != 0 {
      moved := ShiftKeyframes(c, delta, onlySelected);
      ShiftCompose(keys0, ds, delta, onlySelected);
    }
  }

  /**
   * Run the jobs in order. Each curve ends shifted by the sum of its jobs'
   * deltas, it is updated once per call when it has affected keys, the total
   * is the sum of the per-call counts, and the modifiers stay as they were.
   */
  method ShiftJobs(jobs: seq<Job>, onlySelected: bool) returns (movedTotal: nat)
    modifies JobCurves(jobs)
    ensures forall c :: c in JobCurves(jobs) ==>
      ShiftedBy(c, jobs, onlySelected, old(c.keys), old(c.modifiers), old(c.updates))
    ensures movedTotal == old(MovedSum(jobs, onlySelected))
  {
    movedTotal := 0;
    var i := 0;
    while i < |jobs|
      invariant 0 <= i <= |jobs|
      invariant forall c :: c in JobCurves(jobs) ==>
        ShiftedBy(c, jobs[..i], onlySelected, old(c.keys), old(c.modifiers), old(c.updates))
      invariant movedTotal == old(MovedSum(jobs[..i], onlySelected))
    {
      var job := jobs[i];
      var c0 := job.curve;
      ghost var post := jobs[..i + 1];
      assert post == jobs[..i] + [Job(c0, job.delta)];
      assert job in jobs;
      var moved := RunJob(c0, job.delta, onlySelected, jobs[..i], old(c0.keys), old(c0.modifiers), old(c0.updates));
      movedTotal := movedTotal + moved;
      forall c | c in JobCurves(jobs) && c != c0
        ensures ShiftedBy(c, post, onlySelected, old(c.keys), old(c.modifiers), old(c.updates))
      {
        assert post[..i] == jobs[..i];
      }
      i := i + 1;
    }
    assert jobs[..i] == jobs;
  }

  /**
   * `ShiftJobs` seen from a set `cs` holding every job curve: each curve of
   * `cs` ends shifted by the sum of its deltas (zero for the curves no job
   * names), is updated once per `shift_keyframes` call on it when it has a
   * key to touch (never for the curves no job names), and keeps its
   * modifiers.
   */
  method ShiftJobsWithin(jobs: seq<Job>, onlySelected: bool, ghost cs: set<FCurve>) returns (movedTotal: nat)
    requires JobCurves(jobs) <= cs
    modifies cs
    ensures forall c :: c in cs ==>
      && c.keys == ShiftedKeys(old(c.keys), DeltaSum(jobs, c), onlySelected)
      && c.updates == old(c.updates) + (if AffectedCount(old(c.keys), onlySelected) > 0 then ShiftCalls(jobs, c) else 0)
      && c.modifiers == old(c.modifiers)
    ensures movedTotal == old(MovedSum(jobs, onlySelected))
  {
    movedTotal := ShiftJobs(jobs, onlySelected);
    forall c | c in cs && c !in JobCurves(jobs)
      ensures c.keys == ShiftedKeys(old(c.keys), DeltaSum(jobs, c), onlySelected)
      ensures ShiftCalls(jobs, c) == 0
    {
      DeltaSumAbsent(jobs, c);
      ShiftCallsAbsent(jobs, c);
      ShiftInverse(old(c.keys), 0, onlySelected);
    }
  }

  // ---------------------------------------------------------------------------
  // sorted_range
  // ---------------------------------------------------------------------------

  /** `sorted_range`: the two bounds, smaller first. */
  function SortedRange(a: real, b: real): (r: (real, real))
    ensures r.0 <= r.1
    ensures (r.0 == a && r.1 == b) || (r.0 == b && r.1 == a)
  {
    if a <= b then (a, b) else (b, a)
  }
}
