/**
 * The objects-only Stagger Timing operator of the `animation_qol` package:
 * object `i` of the (optionally reversed) selection has its unlocked curves
 * shifted by `i * step`.
 */
module QolStaggerTiming {
  import opened Common
  import opened HostData
  import opened Animation
  import opened StaggerTiming

  /** Every shift this `execute` performs, in order. */
  function QolStaggerJobs(selected: seq<SceneObject>, active: SceneObject?, cfg: StaggerConfig): (jobs: seq<Job>)
  {
    var objs := ObjectList(selected, active);
    if cfg.step == 0 || |objs| <= 1 then []
    else GroupJobs(ObjectGroups(MaybeReversed(objs, cfg.reverseOrder), cfg.includeShapeKeys), cfg.step)
  }

  /** Every curve this `execute` could touch. */
  ghost function QolCandidates(selected: seq<SceneObject>, active: SceneObject?): set<FCurve>
  {
    set c | c in FlatCurves(ObjectList(selected, active), true)
  }

  /**
   * The jobs are exactly those of the full operator's object path: with no
   * pose bones involved the two operators shift the same curves by the same
   * deltas.
   */
  lemma QolMatchesObjectPath(selected: seq<SceneObject>, active: SceneObject?, cfg: StaggerConfig)
    ensures QolStaggerJobs(selected, active, cfg) == StaggerJobs(StaggerContext([], null, selected, active), cfg)
    ensures forall j :: j in QolStaggerJobs(selected, active, cfg) ==>
      !j.curve.lock && j.curve in QolCandidates(selected, active)
  {
    var ctx := StaggerContext([], null, selected, active);
    assert PoseBoneList(ctx) == [];
    StaggerJobsShape(ctx, cfg);
    var objs := ObjectList(selected, active);
    if cfg.step != 0 && |objs| > 1 {
      ObjectPathCurves(objs, cfg.reverseOrder, cfg.includeShapeKeys, cfg.step);
    }
  }

  /**
   * `ANIMATIONQOL_OT_stagger_keyframes.execute` of this package. A zero step
   * or fewer than two objects cancels and moves nothing; otherwise every
   * candidate curve is shifted by the sum of its jobs' deltas, the total is
   * the sum of the per-call counts, and the operator finishes iff something
   * moved.
   */
  method Execute(selected: seq<SceneObject>, active: SceneObject?, props: StaggerProps, settings: StaggerSettings)
    returns (status: Status, movedTotal: nat)
    requires forall c :: c in QolCandidates(selected, active) ==> allocated(c)
    modifies QolCandidates(selected, active)
    ensures var cfg := ResolveStaggerConfig(props, settings);
      forall c :: c in QolCandidates(selected, active) ==>
        && c.keys == ShiftedKeys(old(c.keys), DeltaSum(QolStaggerJobs(selected, active, cfg), c), cfg.selectedOnly)
        && c.updates == old(c.updates) + (if AffectedCount(old(c.keys), cfg.selectedOnly) > 0 then ShiftCalls(QolStaggerJobs(selected, active, cfg), c) else 0)
        && c.modifiers == old(c.modifiers)
    ensures var cfg := ResolveStaggerConfig(props, settings);
      movedTotal == old(MovedSum(QolStaggerJobs(selected, active, cfg), cfg.selectedOnly))
    ensures var cfg := ResolveStaggerConfig(props, settings);
      cfg.step == 0 || |ObjectList(selected, active)| <= 1 ==> movedTotal == 0
    ensures status == if movedTotal == 0 then Cancelled else Finished
  {
    var cfg := ResolveStaggerConfig(props, settings);
    ghost var cands := QolCandidates(selected, active);
    if cfg.step == 0 {
      ShiftNothing(cands, cfg.selectedOnly);
      return Cancelled, 0;
    }
    var objects := selected;
    if objects == [] {
      if active != null {
        objects := objects + [active];
      }
    }
    assert objects == ObjectList(selected, active);
    if |objects| <= 1 {
      ShiftNothing(cands, cfg.selectedOnly);
      return Cancelled, 0;
    }
    if cfg.reverseOrder {
      objects := Reversed(objects);
    }
    QolMatchesObjectPath(selected, active, cfg);
    assert objects == MaybeReversed(ObjectList(selected, active), cfg.reverseOrder);
    assert GroupJobs(ObjectGroups(objects, cfg.includeShapeKeys), cfg.step) == QolStaggerJobs(selected, active, cfg);
    movedTotal := StaggerObjects(objects, cfg.step, cfg.selectedOnly, cfg.includeShapeKeys, cands);
    status := if movedTotal == 0 then Cancelled else Finished;
  }
}
