/**
 * `animation_qol/operators/scene_cleanup.py`: find the objects that are
 * neither visible nor lighting the scene, preview them, and delete them.
 */
module SceneCleanup {
  import opened Common
  import opened HostData
  import opened Objects

  /** `_PREVIEW_LIMIT`: names listed before the "… and N more" line. */
  const PreviewLimit: nat := 8

  /** The cleanup fields of the scene settings. */
  datatype CleanupSettings = CleanupSettings(
    excludeLinked: bool,
    keepLights: bool,
    keepActiveCamera: bool,
    keepCameras: bool,
    considerViewport: bool,
    considerRender: bool)

  /** The scene the operator works on: its objects, the view layer's active object and the scene camera. */
  class Scene {
    var objects: seq<SceneObject?>
    var active: SceneObject?
    const camera: SceneObject?
  }

  // ---------------------------------------------------------------------------
  // _gather_cleanup_targets
  // ---------------------------------------------------------------------------

  /** One object passes every skip rule of `_gather_cleanup_targets`. */
  predicate IsCleanupTarget(obj: SceneObject, activeCamera: SceneObject?, s: CleanupSettings)
  {
    && !(s.excludeLinked && obj.linked)
    && !(AffectsLighting(obj) && s.keepLights)
    && !(obj.kind == Camera && ((s.keepActiveCamera && obj == activeCamera) || s.keepCameras))
    && !IsVisible(obj, s.considerViewport, s.considerRender)
  }

  /** The specification of `_gather_cleanup_targets`: the qualifying objects, in scene order. */
  function CleanupTargets(objs: seq<SceneObject?>, activeCamera: SceneObject?, s: CleanupSettings): seq<SceneObject>
  {
    if objs == [] then []
    else
      var prev := CleanupTargets(objs[..|objs| - 1], activeCamera, s);
      var obj := objs[|objs| - 1];
      if obj != null && IsCleanupTarget(obj, activeCamera, s) then prev + [obj] else prev
  }

  /** An object is a target exactly when it is in the scene and passes every rule. */
  lemma {:induction false} CleanupTargetsMember(objs: seq<SceneObject?>, activeCamera: SceneObject?,
                                                s: CleanupSettings, x: SceneObject)
    ensures x in CleanupTargets(objs, activeCamera, s) <==> x in objs && IsCleanupTarget(x, activeCamera, s)
  {
    if objs != [] {
      var n := |objs| - 1;
      CleanupTargetsMember(objs[..n], activeCamera, s, x);
      assert objs == objs[..n] + [objs[n]];
    }
  }

  /** The targets keep the scene's order: gathering distributes over concatenation. */
  lemma {:induction false} CleanupTargetsAppend(a: seq<SceneObject?>, b: seq<SceneObject?>,
                                                activeCamera: SceneObject?, s: CleanupSettings)
    ensures CleanupTargets(a + b, activeCamera, s) == CleanupTargets(a, activeCamera, s) + CleanupTargets(b, activeCamera, s)
  {
    if b == [] {
      assert a + b == a;
    } else {
      var n := |b| - 1;
      assert (a + b)[..|a + b| - 1] == a + b[..n];
      CleanupTargetsAppend(a, b[..n], activeCamera, s);
    }
  }

  /**
   * What a target is never: linked data when linked data is excluded, a
   * light when lights are kept, a camera when cameras are kept, the scene
   * camera when it is kept, or visible; and with neither visibility
   * criterion considered there are no targets at all.
   */
  lemma CleanupTargetRules(obj: SceneObject, activeCamera: SceneObject?, s: CleanupSettings)
    requires IsCleanupTarget(obj, activeCamera, s)
    ensures s.excludeLinked ==> !obj.linked
    ensures s.keepLights ==> obj.kind != Light && obj.kind != LightProbe
    ensures s.keepCameras ==> obj.kind != Camera
    ensures s.keepActiveCamera ==> obj != activeCamera || obj.kind != Camera
    ensures s.considerRender || s.considerViewport
    ensures s.considerRender ==> obj.hideRender
    ensures s.considerViewport ==> !obj.viewportVisible
  {
    IsVisibleCases(obj, s.considerViewport, s.considerRender);
  }

  /** `_gather_cleanup_targets`: a loop over `scene.objects` appending the objects no rule skips. */
  method GatherCleanupTargets(objects: seq<SceneObject?>, activeCamera: SceneObject?, s: CleanupSettings)
    returns (targets: seq<SceneObject>)
    ensures targets == CleanupTargets(objects, activeCamera, s)
  {
    targets := [];
    var i := 0;
    while i < |objects|
      invariant 0 <= i <= |objects|
      invariant targets == CleanupTargets(objects[..i], activeCamera, s)
    {
      assert objects[..i + 1][..i] == objects[..i];
      var obj := objects[i];
      i := i + 1;
      if obj == null {
        continue;
      }
      if s.excludeLinked && obj.linked {
        continue;
      }
      if AffectsLighting(obj) && s.keepLights {
        continue;
      }
      if obj.kind == Camera {
        if s.keepActiveCamera && obj == activeCamera {
          continue;
        }
        if s.keepCameras {
          continue;
        }
      }
      if IsVisible(obj, s.considerViewport, s.considerRender) {
        continue;
      }
      targets := targets + [obj];
    }
    assert objects[..i] == objects;
  }

  // ---------------------------------------------------------------------------
  // _format_preview
  // ---------------------------------------------------------------------------

  /** `[obj.name for obj in objects]`. */
  function Names(objs: seq<SceneObject>): (names: seq<string>)
    ensures |names| == |objs| && forall i :: 0 <= i < |objs| ==> names[i] == objs[i].name
  {
    seq(|objs|, i requires 0 <= i < |objs| => objs[i].name)
  }

  /** The closing line for `n` names left unlisted. */
  function MoreLine(n: nat): string
  {
    "\U{2026} and " + NatToString(n) + " more"
  }

  /** `_format_preview` on the names: all of them, or the first eight and a line counting the rest. */
  function FormatPreview(names: seq<string>): (r: seq<string>)
    ensures |names| <= PreviewLimit ==> r == names
    ensures |names| > PreviewLimit ==> |r| == PreviewLimit + 1 && r[..PreviewLimit] == names[..PreviewLimit]
  {
    if |names| <= PreviewLimit then names
    else names[..PreviewLimit] + [MoreLine(|names| - PreviewLimit)]
  }

  /** Distinct numbers are written differently. */
  lemma {:induction false} NatToStringInjective(a: nat, b: nat)
    requires NatToString(a) == NatToString(b)
    ensures a == b
    decreases a
  {
    var ra, rb := NatToString(a), NatToString(b);
    if a >= 10 && b >= 10 {
      var pa, pb := NatToString(a / 10), NatToString(b / 10);
      assert ra == pa + [ra[|ra| - 1]] && rb == pb + [rb[|rb| - 1]];
      assert pa == ra[..|ra| - 1] == rb[..|rb| - 1] == pb;
      NatToStringInjective(a / 10, b / 10);
    }
  }

  /** The closing line determines the count it states. */
  lemma MoreLineInjective(m: nat, n: nat)
    requires MoreLine(m) == MoreLine(n)
    ensures m == n
  {
    var a, b := MoreLine(m), MoreLine(n);
    assert NatToString(m) == a[6..|a| - 5];
    assert NatToString(n) == b[6..|b| - 5];
    NatToStringInjective(m, n);
  }

  /** The preview says how many names it left out: long lists of different lengths give different previews. */
  lemma FormatPreviewCounts(names: seq<string>, other: seq<string>)
    requires |names| > PreviewLimit && |other| > PreviewLimit
    requires FormatPreview(names) == FormatPreview(other)
    ensures |names| == |other|
  {
    assert FormatPreview(names)[PreviewLimit] == FormatPreview(other)[PreviewLimit];
    MoreLineInjective(|names| - PreviewLimit, |other| - PreviewLimit);
  }

  // ---------------------------------------------------------------------------
  // execute
  // ---------------------------------------------------------------------------

  /** The objects of the scene, as a set. */
  ghost function ObjectSet(objs: seq<SceneObject?>): set<SceneObject>
  {
    set o: SceneObject | o in objs
  }

  /** The scene's objects once the targets are removed. */
  function Remaining(objs: seq<SceneObject?>, targets: seq<SceneObject>): seq<SceneObject?>
  {
    if objs == [] then []
    else
      var prev := Remaining(objs[..|objs| - 1], targets);
      var obj := objs[|objs| - 1];
      if obj != null && obj in targets then prev else prev + [obj]
  }

  /** Removal keeps exactly the non-targets. */
  lemma {:induction false} RemainingMember(objs: seq<SceneObject?>, targets: seq<SceneObject>, x: SceneObject)
    ensures x in Remaining(objs, targets) <==> x in objs && x !in targets
  {
    if objs != [] {
      var n := |objs| - 1;
      RemainingMember(objs[..n], targets, x);
      assert objs == objs[..n] + [objs[n]];
    }
  }

  /** Cleaning up is idempotent: after the targets are removed, a second pass finds nothing. */
  lemma CleanupIdempotent(objs: seq<SceneObject?>, activeCamera: SceneObject?, s: CleanupSettings)
    ensures var targets := CleanupTargets(objs, activeCamera, s);
      CleanupTargets(Remaining(objs, targets), activeCamera, s) == []
  {
    var targets := CleanupTargets(objs, activeCamera, s);
    var rest := Remaining(objs, targets);
    var again := CleanupTargets(rest, activeCamera, s);
    if again != [] {
      var x := again[0];
      CleanupTargetsMember(rest, activeCamera, s, x);
      RemainingMember(objs, targets, x);
      CleanupTargetsMember(objs, activeCamera, s, x);
      assert false;
    }
  }

  /** Each object's selection after the deselection loop has covered `done`. */
  ghost predicate DeselectedSoFar(objs: set<SceneObject>, done: seq<SceneObject>, selected0: map<SceneObject, bool>)
    reads objs
  {
    && objs <= selected0.Keys
    && forall o :: o in objs ==> o.selected == (if o in done then false else selected0[o])
  }

  /** The deselection loop: every candidate ends up unselected; other objects keep their selection. */
  method Deselect(targets: seq<SceneObject>, ghost objs: set<SceneObject>)
    requires forall i :: 0 <= i < |targets| ==> targets[i] in objs
    modifies objs
    ensures forall o :: o in objs ==> o.selected == (if o in targets then false else old(o.selected))
    ensures forall o :: o in objs ==> o.scale == old(o.scale) && o.location == old(o.location)
  {
    ghost var selected0 := map o | o in objs :: o.selected;
    var i := 0;
    while i < |targets|
      invariant 0 <= i <= |targets|
      invariant DeselectedSoFar(objs, targets[..i], selected0)
      invariant forall o :: o in objs ==> o.scale == old(o.scale) && o.location == old(o.location)
    {
      var obj := targets[i];
      if obj.selected {
        obj.selected := false;
      }
      assert targets[..i + 1] == targets[..i] + [obj];
      i := i + 1;
    }
    assert targets[..i] == targets;
  }

  /**
   * `execute`: cancel when nothing qualifies or on a dry run (reporting the
   * preview); otherwise clear the active object when it is a candidate,
   * deselect the candidates and remove them from the scene.
   */
  method Execute(scene: Scene, s: CleanupSettings, dryRun: bool)
    returns (status: Status, count: nat, preview: seq<string>)
    modifies scene, ObjectSet(scene.objects)
    ensures var targets := CleanupTargets(old(scene.objects), scene.camera, s);
      && (targets == [] ==> status == Cancelled && count == 0 && preview == [])
      && (targets != [] && dryRun ==> status == Cancelled && count == 0 && preview == FormatPreview(Names(targets)))
      && (targets == [] || dryRun ==>
            scene.objects == old(scene.objects) && scene.active == old(scene.active)
            && forall o :: o in old(ObjectSet(scene.objects)) ==> o.selected == old(o.selected))
      && (targets != [] && !dryRun ==>
            && status == Finished && count == |targets| && preview == []
            && scene.objects == Remaining(old(scene.objects), targets)
            && scene.active == (if old(scene.active) in targets then null else old(scene.active))
            && forall o :: o in old(ObjectSet(scene.objects)) ==> o.selected == (if o in targets then false else old(o.selected)))
    ensures forall o :: o in old(ObjectSet(scene.objects)) ==> o.scale == old(o.scale) && o.location == old(o.location)
  {
    var candidates := GatherCleanupTargets(scene.objects, scene.camera, s);
    preview := [];
    count := 0;
    if candidates == [] {
      return Cancelled, 0, [];
    }
    if dryRun {
      preview := FormatPreview(Names(candidates));
      return Cancelled, 0, preview;
    }
    count := |candidates|;
    var activeObj := scene.active;
    if activeObj in candidates {
      scene.active := null;
    }
    forall x | x in candidates ensures x in ObjectSet(scene.objects) {
      CleanupTargetsMember(scene.objects, scene.camera, s, x);
    }
    Deselect(candidates, ObjectSet(scene.objects));
    scene.objects := Remaining(scene.objects, candidates);
    status := Finished;
  }
}
