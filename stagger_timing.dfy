/**
 * The Stagger Timing operator with its pose-bone and object paths. Element
 * `i` of the (optionally reversed) list has its unlocked curves shifted by
 * `i * step`; the nested loops of the source are flattened into one job list
 * that `Animation.ShiftJobs` runs in the same order.
 */
module StaggerTiming {
  import opened Common
  import opened HostData
  import opened Animation

  // ---------------------------------------------------------------------------
  // Job lists: one shift per unlocked curve of each group, delta index * step
  // ---------------------------------------------------------------------------

  /** One job per unlocked curve of `cs`, in order, all with delta `d`. */
  function UnlockedJobs(cs: seq<FCurve>, d: int): seq<Job>
  {
    if cs == [] then []
    else UnlockedJobs(cs[..|cs| - 1], d) + (if cs[|cs| - 1].lock then [] else [Job(cs[|cs| - 1], d)])
  }

  /** The jobs of the stagger loops: group `i` (a bone's or an object's curves) gets delta `i * step`. */
  function GroupJobs(groups: seq<seq<FCurve>>, step: int): seq<Job>
  {
    if groups == [] then []
    else GroupJobs(groups[..|groups| - 1], step) + UnlockedJobs(groups[|groups| - 1], (|groups| - 1) * step)
  }

  lemma {:induction false} DeltaSumConcat(a: seq<Job>, b: seq<Job>, c: FCurve)
    ensures DeltaSum(a + b, c) == DeltaSum(a, c) + DeltaSum(b, c)
    decreases |b|
  {
    if b == [] {
      assert a + b == a;
    } else {
      var n := |b| - 1;
      assert (a + b)[..|a + b| - 1] == a + b[..n];
      DeltaSumConcat(a, b[..n], c);
    }
  }

  /** A locked curve is never shifted; an unlocked one moves by `d` for each occurrence. */
  lemma {:induction false} UnlockedJobsDelta(cs: seq<FCurve>, d: int, c: FCurve)
    ensures DeltaSum(UnlockedJobs(cs, d), c) == if c.lock then 0 else d * multiset(cs)[c]
  {
    if cs != [] {
      var n := |cs| - 1;
      UnlockedJobsDelta(cs[..n], d, c);
      UnlockedJobsSnoc(cs, d, c);
      MultisetSnoc(cs, c);
      if !c.lock && cs[n] == c {
        MulSucc(d, multiset(cs[..n])[c]);
      }
    }
  }

  /** The last curve adds its own job, when unlocked, to those of the others. */
  lemma UnlockedJobsSnoc(cs: seq<FCurve>, d: int, c: FCurve)
    requires cs != []
    ensures var n := |cs| - 1;
      DeltaSum(UnlockedJobs(cs, d), c)
      == DeltaSum(UnlockedJobs(cs[..n], d), c) + (if cs[n] == c && !c.lock then d else 0)
  {
    var n := |cs| - 1;
    var tail := if cs[n].lock then [] else [Job(cs[n], d)];
    assert UnlockedJobs(cs, d) == UnlockedJobs(cs[..n], d) + tail;
    DeltaSumConcat(UnlockedJobs(cs[..n], d), tail, c);
    if !cs[n].lock {
      assert tail[..0] == [];
    }
  }

  lemma MultisetSnoc(cs: seq<FCurve>, c: FCurve)
    requires cs != []
    ensures var n := |cs| - 1; multiset(cs)[c] == multiset(cs[..n])[c] + (if cs[n] == c then 1 else 0)
  {
    var n := |cs| - 1;
    assert cs == cs[..n] + [cs[n]];
  }

  lemma MulSucc(d: int, m: int)
    ensures d * (m + 1) == d * m + d
  {
  }

  lemma MulZero(d: int)
    ensures d * 0 == 0
  {
  }

  lemma MulOne(d: int)
    ensures d * 1 == d
  {
  }

  /** Every job targets an unlocked curve of one of the groups. */
  lemma {:induction false} GroupJobsCurves(groups: seq<seq<FCurve>>, step: int)
    ensures forall j :: j in GroupJobs(groups, step) ==> !j.curve.lock && exists g :: g in groups && j.curve in g
  {
    if groups != [] {
      var n := |groups| - 1;
      GroupJobsCurves(groups[..n], step);
      UnlockedJobsCurves(groups[n], n * step);
    }
  }

  lemma {:induction false} UnlockedJobsCurves(cs: seq<FCurve>, d: int)
    ensures forall j :: j in UnlockedJobs(cs, d) ==> !j.curve.lock && j.curve in cs && j.delta == d
  {
    if cs != [] {
      UnlockedJobsCurves(cs[..|cs| - 1], d);
    }
  }

  /** A locked curve, or one not in the list, gets no shift from it. */
  lemma UnlockedJobsAbsent(cs: seq<FCurve>, d: int, c: FCurve)
    requires c.lock || c !in cs
    ensures DeltaSum(UnlockedJobs(cs, d), c) == 0
  {
    UnlockedJobsDelta(cs, d, c);
    if !c.lock {
      assert multiset(cs)[c] == 0;
      MulZero(d);
    }
  }

  /** An unlocked curve that occurs once in the list is shifted by `d` exactly. */
  lemma UnlockedJobsOnce(cs: seq<FCurve>, d: int, c: FCurve)
    requires !c.lock && multiset(cs)[c] == 1
    ensures DeltaSum(UnlockedJobs(cs, d), c) == d
  {
    UnlockedJobsDelta(cs, d, c);
    MulOne(d);
  }

  /** The last group adds its jobs to those of the groups before it. */
  lemma GroupJobsSnoc(groups: seq<seq<FCurve>>, step: int, c: FCurve)
    requires groups != []
    ensures var n := |groups| - 1;
      DeltaSum(GroupJobs(groups, step), c)
      == DeltaSum(GroupJobs(groups[..n], step), c) + DeltaSum(UnlockedJobs(groups[n], n * step), c)
  {
    var n := |groups| - 1;
    DeltaSumConcat(GroupJobs(groups[..n], step), UnlockedJobs(groups[n], n * step), c);
  }

  /**
   * A curve that is locked, or that belongs to no group after the first, is
   * never shifted: the first element of the list stays where it is.
   */
  lemma {:induction false} GroupJobsUnmoved(groups: seq<seq<FCurve>>, step: int, c: FCurve)
    requires c.lock || forall j :: 0 < j < |groups| ==> c !in groups[j]
    ensures DeltaSum(GroupJobs(groups, step), c) == 0
  {
    if groups != [] {
      var n := |groups| - 1;
      GroupJobsUnmoved(groups[..n], step, c);
      GroupJobsSnoc(groups, step, c);
      if n == 0 {
        assert GroupJobs(groups[..n], step) == [];
        assert UnlockedJobs(groups[0], 0 * step) == UnlockedJobs(groups[0], 0);
        UnlockedJobsZero(groups[0], c);
      } else {
        UnlockedJobsAbsent(groups[n], n * step, c);
      }
    }
  }

  /** Jobs with delta zero shift nothing. */
  lemma {:induction false} UnlockedJobsZero(cs: seq<FCurve>, c: FCurve)
    ensures DeltaSum(UnlockedJobs(cs, 0), c) == 0
  {
    if cs != [] {
      UnlockedJobsZero(cs[..|cs| - 1], c);
      UnlockedJobsSnoc(cs, 0, c);
    }
  }

  /** An unlocked curve that occurs once, in group `i` only, moves by exactly `i * step`. */
  lemma {:induction false} GroupJobsDelta(groups: seq<seq<FCurve>>, step: int, c: FCurve, i: nat)
    requires i < |groups| && !c.lock
    requires multiset(groups[i])[c] == 1
    requires forall j :: 0 <= j < |groups| && j != i ==> c !in groups[j]
    ensures DeltaSum(GroupJobs(groups, step), c) == i * step
  {
    var n := |groups| - 1;
    var init := groups[..n];
    GroupJobsSnoc(groups, step, c);
    if i < n {
      UnlockedJobsAbsent(groups[n], n * step, c);
      GroupsPrefix(groups, c, i);
      GroupJobsDelta(init, step, c, i);
    } else {
      UnlockedJobsOnce(groups[n], n * step, c);
      GroupsPrefix(groups, c, i);
      GroupJobsUnmoved(init, step, c);
    }
  }

  /** The groups before the last keep `c` out of every group but `i`. */
  lemma GroupsPrefix(groups: seq<seq<FCurve>>, c: FCurve, i: nat)
    requires i < |groups|
    requires forall j :: 0 <= j < |groups| && j != i ==> c !in groups[j]
    ensures var init := groups[..|groups| - 1];
      && (i < |init| ==> init[i] == groups[i])
      && (forall j :: 0 <= j < |init| && j != i ==> c !in init[j])
  {
  }

  /** The curves of each pose bone, bone by bone. */
  function BoneGroups(bones: seq<PoseBone>): (groups: seq<seq<FCurve>>)
    ensures |groups| == |bones|
  {
    seq(|bones|, i requires 0 <= i < |bones| => bones[i].curves)
  }

  /** The curves of each object (`iter_fcurves_for_object`), object by object. */
  function ObjectGroups(objs: seq<SceneObject>, includeShapeKeys: bool): (groups: seq<seq<FCurve>>)
    ensures |groups| == |objs|
  {
    seq(|objs|, i requires 0 <= i < |objs| => ObjectCurves(objs[i], includeShapeKeys))
  }

  // ---------------------------------------------------------------------------
  // The two stagger loops
  // ---------------------------------------------------------------------------

  /**
   * `_stagger_objects`: object `i`'s unlocked curves move by `i * step`. `cs`
   * is any set of curves holding every object curve, so that the caller can
   * state the new state of all the curves it could touch.
   */
  method StaggerObjects(objects: seq<SceneObject>, step: int, selectedOnly: bool, includeShapeKeys: bool,
                        ghost cs: set<FCurve>)
    returns (movedTotal: nat)
    requires JobCurves(GroupJobs(ObjectGroups(objects, includeShapeKeys), step)) <= cs
    modifies cs
    ensures forall c :: c in cs ==>
      && c.keys == ShiftedKeys(old(c.keys), DeltaSum(GroupJobs(ObjectGroups(objects, includeShapeKeys), step), c), selectedOnly)
      && c.updates == old(c.updates) + (if AffectedCount(old(c.keys), selectedOnly) > 0 then ShiftCalls(GroupJobs(ObjectGroups(objects, includeShapeKeys), step), c) else 0)
      && c.modifiers == old(c.modifiers)
    ensures movedTotal == old(MovedSum(GroupJobs(ObjectGroups(objects, includeShapeKeys), step), selectedOnly))
  {
    var jobs := GroupJobs(ObjectGroups(objects, includeShapeKeys), step);
    movedTotal := ShiftJobsWithin(jobs, selectedOnly, cs);
  }

  /**
   * `_stagger_pose_bones` as the evidently intended helper would run it: bone
   * `i`'s unlocked curves move by `i * step`.
   */
  method StaggerPoseBones(bones: seq<PoseBone>, step: int, selectedOnly: bool, ghost cs: set<FCurve>)
    returns (movedTotal: nat)
    requires JobCurves(GroupJobs(BoneGroups(bones), step)) <= cs
    modifies cs
    ensures forall c :: c in cs ==>
      && c.keys == ShiftedKeys(old(c.keys), DeltaSum(GroupJobs(BoneGroups(bones), step), c), selectedOnly)
      && c.updates == old(c.updates) + (if AffectedCount(old(c.keys), selectedOnly) > 0 then ShiftCalls(GroupJobs(BoneGroups(bones), step), c) else 0)
      && c.modifiers == old(c.modifiers)
    ensures movedTotal == old(MovedSum(GroupJobs(BoneGroups(bones), step), selectedOnly))
  {
    var jobs := GroupJobs(BoneGroups(bones), step);
    movedTotal := ShiftJobsWithin(jobs, selectedOnly, cs);
  }

  /**
   * `_stagger_pose_bones` as written: index 0 is skipped (delta 0), and at the
   * first index with a non-zero delta it looks up a helper the animation
   * utilities do not define, which raises `AttributeError` before any curve
   * is touched. So it raises exactly when there are two or more bones and the
   * step is non-zero.
   */
  method StaggerPoseBonesAsWritten(bones: seq<PoseBone>, step: int) returns (raised: bool)
    ensures raised <==> |bones| > 1 && step != 0
  {
    raised := false;
    var index := 0;
    while index < |bones|
      invariant 0 <= index <= |bones|
      invariant !raised
      invariant index >= 2 ==> step == 0
    {
      var frameDelta := index * step;
      if frameDelta != 0 {
        raised := true;
        return;
      }
      index := index + 1;
    }
  }

  // ---------------------------------------------------------------------------
  // execute
  // ---------------------------------------------------------------------------

  datatype StaggerSettings = StaggerSettings(
    staggerStep: int, staggerSelectedOnly: bool, staggerReverseOrder: bool, staggerIncludeShapeKeys: bool)

  datatype StaggerProps = StaggerProps(
    step: int, useSceneSettings: bool, selectedOnly: bool, reverseOrder: bool, includeShapeKeys: bool)

  datatype StaggerConfig = StaggerConfig(step: int, selectedOnly: bool, reverseOrder: bool, includeShapeKeys: bool)

  /** Scene settings win when `use_scene_settings`, otherwise the operator's own properties. */
  function ResolveStaggerConfig(props: StaggerProps, settings: StaggerSettings): (cfg: StaggerConfig)
    ensures props.useSceneSettings ==>
      cfg == StaggerConfig(settings.staggerStep, settings.staggerSelectedOnly,
                           settings.staggerReverseOrder, settings.staggerIncludeShapeKeys)
    ensures !props.useSceneSettings ==>
      cfg == StaggerConfig(props.step, props.selectedOnly, props.reverseOrder, props.includeShapeKeys)
  {
    if props.useSceneSettings
    then StaggerConfig(settings.staggerStep, settings.staggerSelectedOnly,
                       settings.staggerReverseOrder, settings.staggerIncludeShapeKeys)
    else StaggerConfig(props.step, props.selectedOnly, props.reverseOrder, props.includeShapeKeys)
  }

  /** What the operator reads from the host context. */
  datatype StaggerContext = StaggerContext(
    selectedPoseBones: seq<PoseBone>, activePoseBone: PoseBone?,
    selectedObjects: seq<SceneObject>, activeObject: SceneObject?)

  /** The selected pose bones, plus the active one when it is not among them. */
  function PoseBoneList(ctx: StaggerContext): (bones: seq<PoseBone>)
    ensures ctx.activePoseBone != null && ctx.activePoseBone !in ctx.selectedPoseBones ==>
      bones == ctx.selectedPoseBones + [ctx.activePoseBone]
    ensures ctx.activePoseBone == null || ctx.activePoseBone in ctx.selectedPoseBones ==>
      bones == ctx.selectedPoseBones
  {
    if ctx.activePoseBone != null && ctx.activePoseBone !in ctx.selectedPoseBones
    then ctx.selectedPoseBones + [ctx.activePoseBone]
    else ctx.selectedPoseBones
  }

  /** The selected objects, or the active object alone when nothing is selected. */
  function ObjectList(selected: seq<SceneObject>, active: SceneObject?): (objs: seq<SceneObject>)
    ensures selected != [] ==> objs == selected
    ensures selected == [] && active != null ==> objs == [active]
    ensures selected == [] && active == null ==> objs == []
  {
    if selected != [] then selected else if active != null then [active] else []
  }

  function MaybeReversed<T>(s: seq<T>, reverse: bool): seq<T>
  {
    if reverse then Reversed(s) else s
  }

  /** The bone path is taken iff more than one pose bone is involved. */
  predicate UseBones(ctx: StaggerContext)
  {
    |PoseBoneList(ctx)| > 1
  }

  /** Every shift `execute` performs, in order. */
  function StaggerJobs(ctx: StaggerContext, cfg: StaggerConfig): seq<Job>
  {
    if cfg.step == 0 then []
    else if UseBones(ctx) then GroupJobs(BoneGroups(MaybeReversed(PoseBoneList(ctx), cfg.reverseOrder)), cfg.step)
    else
      var objs := ObjectList(ctx.selectedObjects, ctx.activeObject);
      if |objs| <= 1 then []
      else GroupJobs(ObjectGroups(MaybeReversed(objs, cfg.reverseOrder), cfg.includeShapeKeys), cfg.step)
  }

  /** Every curve `execute` could touch. */
  ghost function StaggerCandidates(ctx: StaggerContext): set<FCurve>
  {
    (set b, c | b in PoseBoneList(ctx) && c in b.curves :: c)
    + (set c | c in FlatCurves(ObjectList(ctx.selectedObjects, ctx.activeObject), true))
  }

  /** On the bone path every job targets an unlocked curve of one of the bones. */
  lemma BonePathCurves(bones: seq<PoseBone>, reverse: bool, step: int)
    ensures forall j :: j in GroupJobs(BoneGroups(MaybeReversed(bones, reverse)), step) ==>
      !j.curve.lock && exists b :: b in bones && j.curve in b.curves
  {
    var ob := MaybeReversed(bones, reverse);
    ReversedInvolution(bones);
    GroupJobsCurves(BoneGroups(ob), step);
    forall j | j in GroupJobs(BoneGroups(ob), step)
      ensures exists b :: b in bones && j.curve in b.curves
    {
      var g :| g in BoneGroups(ob) && j.curve in g;
      var i :| 0 <= i < |ob| && BoneGroups(ob)[i] == g;
      var b := ob[i];
      assert b in bones && j.curve in b.curves;
    }
  }

  /** On the object path every job targets an unlocked curve of one of the objects. */
  lemma ObjectPathCurves(objs: seq<SceneObject>, reverse: bool, includeShapeKeys: bool, step: int)
    ensures forall j :: j in GroupJobs(ObjectGroups(MaybeReversed(objs, reverse), includeShapeKeys), step) ==>
      && !j.curve.lock
      && j.curve in FlatCurves(objs, includeShapeKeys)
      && j.curve in FlatCurves(objs, true)
  {
    var oo := MaybeReversed(objs, reverse);
    ReversedInvolution(objs);
    GroupJobsCurves(ObjectGroups(oo, includeShapeKeys), step);
    forall j | j in GroupJobs(ObjectGroups(oo, includeShapeKeys), step)
      ensures j.curve in FlatCurves(objs, includeShapeKeys) && j.curve in FlatCurves(objs, true)
    {
      var g :| g in ObjectGroups(oo, includeShapeKeys) && j.curve in g;
      var i :| 0 <= i < |oo| && ObjectGroups(oo, includeShapeKeys)[i] == g;
      assert oo[i] in objs;
      FlatCurvesMember(objs, includeShapeKeys, j.curve);
      if !includeShapeKeys {
        ShapeKeyCurvesIncluded(objs, j.curve);
      }
    }
  }

  /**
   * A zero step, or the object path with fewer than two objects, shifts
   * nothing; every job targets an unlocked candidate curve; on the bone path
   * only bone curves are shifted and on the object path only object curves.
   */
  lemma StaggerJobsShape(ctx: StaggerContext, cfg: StaggerConfig)
    ensures cfg.step == 0 ==> StaggerJobs(ctx, cfg) == []
    ensures !UseBones(ctx) && |ObjectList(ctx.selectedObjects, ctx.activeObject)| <= 1 ==> StaggerJobs(ctx, cfg) == []
    ensures forall j :: j in StaggerJobs(ctx, cfg) ==> !j.curve.lock && j.curve in StaggerCandidates(ctx)
    ensures UseBones(ctx) ==> forall j :: j in StaggerJobs(ctx, cfg) ==> exists b :: b in PoseBoneList(ctx) && j.curve in b.curves
    ensures !UseBones(ctx) ==> forall j :: j in StaggerJobs(ctx, cfg) ==>
      j.curve in FlatCurves(ObjectList(ctx.selectedObjects, ctx.activeObject), cfg.includeShapeKeys)
  {
    var bones := PoseBoneList(ctx);
    var objs := ObjectList(ctx.selectedObjects, ctx.activeObject);
    if cfg.step != 0 {
      if UseBones(ctx) {
        BonePathCurves(bones, cfg.reverseOrder, cfg.step);
        forall j | j in StaggerJobs(ctx, cfg) ensures j.curve in StaggerCandidates(ctx) {
          var b :| b in bones && j.curve in b.curves;
        }
      } else if |objs| > 1 {
        ObjectPathCurves(objs, cfg.reverseOrder, cfg.includeShapeKeys, cfg.step);
      }
    }
  }

  /**
   * On the bone path, an unlocked curve owned by exactly one bone, once,
   * moves by that bone's position in the (possibly reversed) list times the
   * step; the first bone's curves stay put.
   */
  lemma StaggerBoneDelta(ctx: StaggerContext, cfg: StaggerConfig, c: FCurve, i: nat)
    requires cfg.step != 0 && UseBones(ctx) && !c.lock
    requires var bones := MaybeReversed(PoseBoneList(ctx), cfg.reverseOrder);
      && i < |bones| && multiset(bones[i].curves)[c] == 1
      && forall j :: 0 <= j < |bones| && j != i ==> c !in bones[j].curves
    ensures DeltaSum(StaggerJobs(ctx, cfg), c) == i * cfg.step
    ensures i == 0 ==> DeltaSum(StaggerJobs(ctx, cfg), c) == 0
  {
    var groups := BoneGroups(MaybeReversed(PoseBoneList(ctx), cfg.reverseOrder));
    GroupJobsDelta(groups, cfg.step, c, i);
  }

  /**
   * On the object path with two or more objects, an unlocked curve of
   * exactly one object, once, moves by that object's position in the
   * (possibly reversed) list times the step.
   */
  lemma StaggerObjectDelta(ctx: StaggerContext, cfg: StaggerConfig, c: FCurve, i: nat)
    requires cfg.step != 0 && !UseBones(ctx) && !c.lock
    requires |ObjectList(ctx.selectedObjects, ctx.activeObject)| > 1
    requires var objs := MaybeReversed(ObjectList(ctx.selectedObjects, ctx.activeObject), cfg.reverseOrder);
      && i < |objs| && multiset(ObjectCurves(objs[i], cfg.includeShapeKeys))[c] == 1
      && forall j :: 0 <= j < |objs| && j != i ==> c !in ObjectCurves(objs[j], cfg.includeShapeKeys)
    ensures DeltaSum(StaggerJobs(ctx, cfg), c) == i * cfg.step
  {
    var objs := MaybeReversed(ObjectList(ctx.selectedObjects, ctx.activeObject), cfg.reverseOrder);
    GroupJobsDelta(ObjectGroups(objs, cfg.includeShapeKeys), cfg.step, c, i);
  }

  /** Locked curves never move, on either path. */
  lemma StaggerLockedUnmoved(ctx: StaggerContext, cfg: StaggerConfig, c: FCurve)
    requires c.lock
    ensures DeltaSum(StaggerJobs(ctx, cfg), c) == 0
  {
    var objs := MaybeReversed(ObjectList(ctx.selectedObjects, ctx.activeObject), cfg.reverseOrder);
    GroupJobsUnmoved(BoneGroups(MaybeReversed(PoseBoneList(ctx), cfg.reverseOrder)), cfg.step, c);
    GroupJobsUnmoved(ObjectGroups(objs, cfg.includeShapeKeys), cfg.step, c);
  }

  /**
   * The part of `execute` after the zero-step check: choose the bone or the
   * object path, order the list and run the loop. Every candidate curve ends
   * shifted by the sum of its jobs' deltas and the total is the sum of the
   * per-call counts; too few objects moves nothing.
   */
  method RunStagger(ctx: StaggerContext, cfg: StaggerConfig) returns (movedTotal: nat)
    requires cfg.step != 0
    requires forall c :: c in StaggerCandidates(ctx) ==> allocated(c)
    modifies StaggerCandidates(ctx)
    ensures forall c :: c in StaggerCandidates(ctx) ==>
      && c.keys == ShiftedKeys(old(c.keys), DeltaSum(StaggerJobs(ctx, cfg), c), cfg.selectedOnly)
      && c.updates == old(c.updates) + (if AffectedCount(old(c.keys), cfg.selectedOnly) > 0 then ShiftCalls(StaggerJobs(ctx, cfg), c) else 0)
      && c.modifiers == old(c.modifiers)
    ensures movedTotal == old(MovedSum(StaggerJobs(ctx, cfg), cfg.selectedOnly))
  {
    var poseBones := ctx.selectedPoseBones;
    var active := ctx.activePoseBone;
    if active != null && active !in poseBones {
      poseBones := poseBones + [active];
    }
    assert poseBones == PoseBoneList(ctx);
    var useBones := |poseBones| > 1;
    if useBones && cfg.reverseOrder {
      poseBones := Reversed(poseBones);
    }

    if useBones {
      assert poseBones == MaybeReversed(PoseBoneList(ctx), cfg.reverseOrder);
      movedTotal := RunBonePath(ctx, cfg, poseBones);
    } else {
      var objects := ctx.selectedObjects;
      if objects == [] {
        var activeObject := ctx.activeObject;
        if activeObject != null {
          objects := objects + [activeObject];
        }
      }
      assert objects == ObjectList(ctx.selectedObjects, ctx.activeObject);
      if |objects| <= 1 {
        assert StaggerJobs(ctx, cfg) == [];
        ShiftNothing(StaggerCandidates(ctx), cfg.selectedOnly);
        return 0;
      }
      if cfg.reverseOrder {
        objects := Reversed(objects);
      }
      assert objects == MaybeReversed(ObjectList(ctx.selectedObjects, ctx.activeObject), cfg.reverseOrder);
      movedTotal := RunObjectPath(ctx, cfg, objects);
    }
  }

  /** The bone path of `RunStagger`, on the ordered bone list. */
  method RunBonePath(ctx: StaggerContext, cfg: StaggerConfig, bones: seq<PoseBone>) returns (movedTotal: nat)
    requires cfg.step != 0 && UseBones(ctx) && bones == MaybeReversed(PoseBoneList(ctx), cfg.reverseOrder)
    requires forall c :: c in StaggerCandidates(ctx) ==> allocated(c)
    modifies StaggerCandidates(ctx)
    ensures forall c :: c in StaggerCandidates(ctx) ==>
      && c.keys == ShiftedKeys(old(c.keys), DeltaSum(StaggerJobs(ctx, cfg), c), cfg.selectedOnly)
      && c.updates == old(c.updates) + (if AffectedCount(old(c.keys), cfg.selectedOnly) > 0 then ShiftCalls(StaggerJobs(ctx, cfg), c) else 0)
      && c.modifiers == old(c.modifiers)
    ensures movedTotal == old(MovedSum(StaggerJobs(ctx, cfg), cfg.selectedOnly))
  {
    StaggerJobsShape(ctx, cfg);
    assert GroupJobs(BoneGroups(bones), cfg.step) == StaggerJobs(ctx, cfg);
    movedTotal := StaggerPoseBones(bones, cfg.step, cfg.selectedOnly, StaggerCandidates(ctx));
  }

  /** The object path of `RunStagger` with two or more objects, on the ordered object list. */
  method RunObjectPath(ctx: StaggerContext, cfg: StaggerConfig, objects: seq<SceneObject>) returns (movedTotal: nat)
    requires cfg.step != 0 && !UseBones(ctx) && |ObjectList(ctx.selectedObjects, ctx.activeObject)| > 1
    requires objects == MaybeReversed(ObjectList(ctx.selectedObjects, ctx.activeObject), cfg.reverseOrder)
    requires forall c :: c in StaggerCandidates(ctx) ==> allocated(c)
    modifies StaggerCandidates(ctx)
    ensures forall c :: c in StaggerCandidates(ctx) ==>
      && c.keys == ShiftedKeys(old(c.keys), DeltaSum(StaggerJobs(ctx, cfg), c), cfg.selectedOnly)
      && c.updates == old(c.updates) + (if AffectedCount(old(c.keys), cfg.selectedOnly) > 0 then ShiftCalls(StaggerJobs(ctx, cfg), c) else 0)
      && c.modifiers == old(c.modifiers)
    ensures movedTotal == old(MovedSum(StaggerJobs(ctx, cfg), cfg.selectedOnly))
  {
    StaggerJobsShape(ctx, cfg);
    assert GroupJobs(ObjectGroups(objects, cfg.includeShapeKeys), cfg.step) == StaggerJobs(ctx, cfg);
    movedTotal := StaggerObjects(objects, cfg.step, cfg.selectedOnly, cfg.includeShapeKeys, StaggerCandidates(ctx));
  }

  /**
   * `ANIMATIONQOL_OT_stagger_keyframes.execute` with the bone path as
   * intended. A zero step cancels and moves nothing; otherwise every
   * candidate curve ends shifted by the sum of its jobs' deltas, the total is
   * the sum of the per-call counts, and the operator finishes iff something
   * moved.
   */
  method Execute(ctx: StaggerContext, props: StaggerProps, settings: StaggerSettings)
    returns (status: Status, movedTotal: nat)
    requires forall c :: c in StaggerCandidates(ctx) ==> allocated(c)
    modifies StaggerCandidates(ctx)
    ensures var cfg := ResolveStaggerConfig(props, settings);
      forall c :: c in StaggerCandidates(ctx) ==>
        && c.keys == ShiftedKeys(old(c.keys), DeltaSum(StaggerJobs(ctx, cfg), c), cfg.selectedOnly)
        && c.updates == old(c.updates) + (if AffectedCount(old(c.keys), cfg.selectedOnly) > 0 then ShiftCalls(StaggerJobs(ctx, cfg), c) else 0)
        && c.modifiers == old(c.modifiers)
    ensures var cfg := ResolveStaggerConfig(props, settings);
      movedTotal == old(MovedSum(StaggerJobs(ctx, cfg), cfg.selectedOnly))
    ensures status == if movedTotal == 0 then Cancelled else Finished
  {
    var cfg := ResolveStaggerConfig(props, settings);
    if cfg.step == 0 {
      ShiftNothing(StaggerCandidates(ctx), cfg.selectedOnly);
      return Cancelled, 0;
    }
    movedTotal := RunStagger(ctx, cfg);
    status := if movedTotal == 0 then Cancelled else Finished;
  }
}
