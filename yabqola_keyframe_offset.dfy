/**
 * The uniform-only Offset Keyframes operator of the packaged add-on copy:
 * every target curve moves by the same delta.
 */
module YabqolaKeyframeOffset {
  import opened Common
  import opened HostData
  import opened Animation
  import KeyframeOffset

  /** The offset fields of that copy's scene settings (no mode). */
  datatype UniformSettings = UniformSettings(keyframeFrameOffset: int, keyframeOnlySelectedKeys: bool)

  /** That copy's operator properties (no mode). */
  datatype UniformProps = UniformProps(frameDelta: int, useSceneSettings: bool, affectAllKeys: bool)

  /** The resolved delta and key filter, with the mode fixed to uniform. */
  function ResolveUniformConfig(props: UniformProps, settings: UniformSettings): (cfg: KeyframeOffset.OffsetConfig)
    ensures cfg.mode == KeyframeOffset.Uniform
    ensures props.useSceneSettings ==>
      cfg.frameDelta == settings.keyframeFrameOffset && cfg.onlySelected == settings.keyframeOnlySelectedKeys
    ensures !props.useSceneSettings ==>
      cfg.frameDelta == props.frameDelta && cfg.onlySelected == !props.affectAllKeys
  {
    if props.useSceneSettings
    then KeyframeOffset.OffsetConfig(settings.keyframeFrameOffset, settings.keyframeOnlySelectedKeys, KeyframeOffset.Uniform)
    else KeyframeOffset.OffsetConfig(props.frameDelta, !props.affectAllKeys, KeyframeOffset.Uniform)
  }

  /** In uniform mode every gathered curve gets the full delta, and no other curve moves. */
  lemma UniformDeltas(ctx: AnimContext, cfg: KeyframeOffset.OffsetConfig)
    requires cfg.mode == KeyframeOffset.Uniform
    ensures forall c :: c in KeyframeOffset.OffsetTargets(ctx) ==> KeyframeOffset.OffsetDelta(ctx, cfg, c) == cfg.frameDelta
    ensures forall c :: c !in KeyframeOffset.OffsetTargets(ctx) ==> KeyframeOffset.OffsetDelta(ctx, cfg, c) == 0
  {
    KeyframeOffset.OffsetDeltaSpec(ctx, cfg);
  }

  /**
   * `ANIMATIONQOL_OT_offset_keyframes.execute` of the uniform-only copy. A zero
   * delta cancels before anything is gathered; an empty target list cancels;
   * otherwise every gathered curve is shifted by the delta, the total is the
   * sum of the per-curve counts, a zero total cancels, and the direction is
   * forward iff the delta is positive.
   */
  method Execute(ctx: AnimContext, props: UniformProps, settings: UniformSettings)
    returns (status: Status, movedTotal: nat, forward: bool)
    requires forall c :: c in CandidateCurves(ctx) ==> allocated(c)
    modifies CandidateCurves(ctx)
    ensures var cfg := ResolveUniformConfig(props, settings);
      forall c :: c in CandidateCurves(ctx) ==>
        && c.keys == ShiftedKeys(old(c.keys), KeyframeOffset.OffsetDelta(ctx, cfg, c), cfg.onlySelected)
        && c.updates == old(c.updates) + KeyframeOffset.Updated(old(c.keys), KeyframeOffset.OffsetDelta(ctx, cfg, c), cfg.onlySelected)
        && c.modifiers == old(c.modifiers)
    ensures var cfg := ResolveUniformConfig(props, settings);
      cfg.frameDelta == 0 || Gather(ctx, true, true) == [] ==> status == Cancelled && movedTotal == 0
    ensures var cfg := ResolveUniformConfig(props, settings);
      cfg.frameDelta != 0 && Gather(ctx, true, true) != [] ==>
        && movedTotal == old(MovedSum(
             KeyframeOffset.OffsetJobs(KeyframeOffset.OffsetTargets(ctx), cfg.frameDelta, KeyframeOffset.Uniform),
             cfg.onlySelected))
        && status == (if movedTotal == 0 then Cancelled else Finished)
        && forward == (cfg.frameDelta > 0)
  {
    var cfg := ResolveUniformConfig(props, settings);
    ShiftNothing(CandidateCurves(ctx), cfg.onlySelected);
    if cfg.frameDelta == 0 {
      return Cancelled, 0, false;
    }
    KeyframeOffset.OrderedTargetsWellFormed(ctx, KeyframeOffset.Uniform);
    ghost var expected := MovedSum(
      KeyframeOffset.OffsetJobs(KeyframeOffset.OffsetTargets(ctx), cfg.frameDelta, KeyframeOffset.Uniform),
      cfg.onlySelected);
    var fcurves := GatherTargetFcurves(ctx, true, true);
    if fcurves == [] {
      fcurves := GatherTargetFcurves(ctx, false, true);
    }
    assert fcurves == KeyframeOffset.OrderedTargets(ctx, KeyframeOffset.Uniform);
    if fcurves == [] {
      KeyframeOffset.OffsetDeltaSpec(ctx, cfg);
      return Cancelled, 0, false;
    }
    ghost var jobs := KeyframeOffset.OffsetJobs(fcurves, cfg.frameDelta, KeyframeOffset.Uniform);
    assert forall i :: 0 <= i < |jobs| ==> jobs[i].curve == fcurves[i];
    assert JobCurves(jobs) <= CandidateCurves(ctx);
    assert unchanged(CandidateCurves(ctx));
    assert MovedSum(jobs, cfg.onlySelected) == expected;
    movedTotal := KeyframeOffset.ShiftTargets(ctx, cfg, fcurves);
    status := if movedTotal == 0 then Cancelled else Finished;
    forward := cfg.frameDelta > 0;
  }
}
