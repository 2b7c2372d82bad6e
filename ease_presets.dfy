/**
 * `operators/ease_presets.py`: set the interpolation (and, on request, the
 * handle types) of the targeted keys of every target curve from a preset.
 * Keys are values inside `FCurve.keys`, so assigning a key's fields in place
 * becomes replacing that element of the sequence.
 */
module EasePresets {
  import opened Common
  import opened HostData
  import opened Animation

  /** The `ease_preset` enum. */
  datatype Preset = EaseIn | EaseOut | EaseInOut | LinearPreset | ConstantPreset

  /** The `ease_*` scene settings the operator reads. */
  datatype EaseSettings = EaseSettings(
    preset: Preset,
    onlySelectedCurves: bool,
    includeShapeKeys: bool,
    onlySelectedKeys: bool,
    affectHandles: bool)

  /**
   * `_apply_preset_to_keyframe`: LINEAR sets linear interpolation (and vector
   * handles when handles are affected); CONSTANT sets only the interpolation;
   * the ease presets set BEZIER and, when handles are affected, the handle
   * pair of the preset's table entry.
   */
  function ApplyPreset(k: Keyframe, preset: Preset, affectHandles: bool): (r: Keyframe)
    // only the interpolation and the two handle types are ever assigned
    ensures r.(interpolation := k.interpolation, hlType := k.hlType, hrType := k.hrType) == k
    ensures r.interpolation == Linear <==> preset == LinearPreset
    ensures r.interpolation == Constant <==> preset == ConstantPreset
    ensures r.interpolation == Bezier <==> preset.EaseIn? || preset.EaseOut? || preset.EaseInOut?
    // handle types move only when asked to, and never under CONSTANT
    ensures !affectHandles || preset == ConstantPreset ==> r.hlType == k.hlType && r.hrType == k.hrType
    ensures affectHandles && preset == LinearPreset ==> r.hlType == Vector && r.hrType == Vector
    ensures affectHandles && preset == EaseIn ==> r.hlType == AutoClamped && r.hrType == Vector
    ensures affectHandles && preset == EaseOut ==> r.hlType == Vector && r.hrType == AutoClamped
    ensures affectHandles && preset == EaseInOut ==> r.hlType == AutoClamped && r.hrType == AutoClamped
  {
    if preset == LinearPreset then
      if affectHandles then k.(interpolation := Linear, hlType := Vector, hrType := Vector)
      else k.(interpolation := Linear)
    else if preset == ConstantPreset then
      k.(interpolation := Constant)
    else if !affectHandles then
      k.(interpolation := Bezier)
    else if preset == EaseIn then
      k.(interpolation := Bezier, hlType := AutoClamped, hrType := Vector)
    else if preset == EaseOut then
      k.(interpolation := Bezier, hlType := Vector, hrType := AutoClamped)
    else
      k.(interpolation := Bezier, hlType := AutoClamped, hrType := AutoClamped)
  }

  /** Only constants are assigned, so applying a preset a second time changes nothing. */
  lemma ApplyPresetIdempotent(k: Keyframe, preset: Preset, affectHandles: bool)
    ensures ApplyPreset(ApplyPreset(k, preset, affectHandles), preset, affectHandles)
         == ApplyPreset(k, preset, affectHandles)
  {
  }

  /** The keys after the preset is applied to every targeted key (`_iter_target_keyframes`). */
  function EasedKeys(keys: seq<Keyframe>, preset: Preset, affectHandles: bool, onlySelectedKeys: bool)
    : (r: seq<Keyframe>)
    ensures |r| == |keys|
  {
    seq(|keys|, i requires 0 <= i < |keys| =>
      if Affected(keys[i], onlySelectedKeys) then ApplyPreset(keys[i], preset, affectHandles) else keys[i])
  }

  /**
   * With `only_selected_keys`, unselected keys are untouched; every key keeps
   * its time, value, handles and selection, so the same keys stay targeted.
   */
  lemma EasedKeysPointwise(keys: seq<Keyframe>, preset: Preset, affectHandles: bool, onlySelectedKeys: bool, i: nat)
    requires i < |keys|
    ensures var k, k' := keys[i], EasedKeys(keys, preset, affectHandles, onlySelectedKeys)[i];
      && (onlySelectedKeys && !k.selected ==> k' == k)
      && k'.x == k.x && k'.y == k.y && k'.hlX == k.hlX && k'.hlY == k.hlY && k'.hrX == k.hrX && k'.hrY == k.hrY
      && k'.selected == k.selected
  {
  }

  /** Applying the same preset twice gives the same keys as applying it once. */
  lemma EasedKeysIdempotent(keys: seq<Keyframe>, preset: Preset, affectHandles: bool, onlySelectedKeys: bool)
    ensures var once := EasedKeys(keys, preset, affectHandles, onlySelectedKeys);
      EasedKeys(once, preset, affectHandles, onlySelectedKeys) == once
  {
    var once := EasedKeys(keys, preset, affectHandles, onlySelectedKeys);
    var twice := EasedKeys(once, preset, affectHandles, onlySelectedKeys);
    forall i | 0 <= i < |keys| ensures twice[i] == once[i] {
      ApplyPresetIdempotent(keys[i], preset, affectHandles);
    }
  }

  /** The preset leaves selection alone, so a curve has a targeted key after the pass exactly when it had one before. */
  lemma EasedKeysHasAffected(keys: seq<Keyframe>, preset: Preset, affectHandles: bool, onlySelectedKeys: bool)
    ensures HasAffected(EasedKeys(keys, preset, affectHandles, onlySelectedKeys), onlySelectedKeys)
        <==> HasAffected(keys, onlySelectedKeys)
  {
    var r := EasedKeys(keys, preset, affectHandles, onlySelectedKeys);
    if HasAffected(keys, onlySelectedKeys) {
      var j :| 0 <= j < |keys| && Affected(keys[j], onlySelectedKeys);
      EasedKeysPointwise(keys, preset, affectHandles, onlySelectedKeys, j);
    }
    if HasAffected(r, onlySelectedKeys) {
      var j :| 0 <= j < |r| && Affected(r[j], onlySelectedKeys);
      EasedKeysPointwise(keys, preset, affectHandles, onlySelectedKeys, j);
    }
  }

  /** The inner loop of `execute` over one curve's targeted keys; `changed` says some key was targeted. */
  method EaseKeys(fcurve: FCurve, s: EaseSettings) returns (changed: bool)
    modifies fcurve
    ensures fcurve.keys == EasedKeys(old(fcurve.keys), s.preset, s.affectHandles, s.onlySelectedKeys)
    ensures changed == HasAffected(old(fcurve.keys), s.onlySelectedKeys)
    ensures fcurve.modifiers == old(fcurve.modifiers) && fcurve.updates == old(fcurve.updates)
  {
    ghost var keys0 := fcurve.keys;
    changed := false;
    var i := 0;
    while i < |fcurve.keys|
      invariant 0 <= i <= |fcurve.keys| == |keys0|
      invariant forall j :: 0 <= j < |keys0| ==>
        fcurve.keys[j] == if j < i && Affected(keys0[j], s.onlySelectedKeys)
                          then ApplyPreset(keys0[j], s.preset, s.affectHandles) else keys0[j]
      invariant changed == HasAffected(keys0[..i], s.onlySelectedKeys)
      invariant fcurve.modifiers == old(fcurve.modifiers) && fcurve.updates == old(fcurve.updates)
    {
      HasAffectedSnoc(keys0, i, s.onlySelectedKeys);
      var keyframe := fcurve.keys[i];
      if Affected(keyframe, s.onlySelectedKeys) {
        fcurve.keys := fcurve.keys[i := ApplyPreset(keyframe, s.preset, s.affectHandles)];
        changed := true;
      }
      i := i + 1;
    }
    assert keys0[..i] == keys0;
    assert fcurve.keys == EasedKeys(keys0, s.preset, s.affectHandles, s.onlySelectedKeys);
  }

  /**
   * The state of one candidate curve, given its keys, update count and
   * modifiers before the operator ran and whether the loop visited it.
   */
  ghost predicate EaseState(keys: seq<Keyframe>, updates: nat, mods: seq<Modifier>, visited: bool,
                            keys0: seq<Keyframe>, updates0: nat, mods0: seq<Modifier>, s: EaseSettings)
  {
    && keys == (if visited then EasedKeys(keys0, s.preset, s.affectHandles, s.onlySelectedKeys) else keys0)
    && updates == updates0 + (if visited && HasAffected(keys0, s.onlySelectedKeys) then 1 else 0)
    && mods == mods0
  }

  /** `EaseState` of a curve's own fields. */
  ghost predicate CurveEased(c: FCurve, visited: bool, keys0: seq<Keyframe>, updates0: nat, mods0: seq<Modifier>, s: EaseSettings)
    reads c
  {
    EaseState(c.keys, c.updates, c.modifiers, visited, keys0, updates0, mods0, s)
  }

  /** The candidates' state while the loop has been through `visited`. */
  ghost predicate EasedSoFar(cs: set<FCurve>, visited: seq<FCurve>, keys0: map<FCurve, seq<Keyframe>>,
                             updates0: map<FCurve, nat>, mods0: map<FCurve, seq<Modifier>>, s: EaseSettings)
    reads cs
  {
    && cs <= keys0.Keys && cs <= updates0.Keys && cs <= mods0.Keys
    && forall c :: c in cs ==>
      CurveEased(c, c in visited, keys0[c], updates0[c], mods0[c], s)
  }

  /** One curve of the loop in `execute`: the preset on its targeted keys, then `update()` when there was one. */
  method EaseCurve(fcurve: FCurve, s: EaseSettings) returns (changed: bool)
    modifies fcurve
    ensures EaseState(fcurve.keys, fcurve.updates, fcurve.modifiers, true,
                      old(fcurve.keys), old(fcurve.updates), old(fcurve.modifiers), s)
    ensures changed == HasAffected(old(fcurve.keys), s.onlySelectedKeys)
  {
    changed := EaseKeys(fcurve, s);
    if changed {
      fcurve.updates := fcurve.updates + 1;
    }
  }

  /**
   * One step of the curve loop, stated over the whole candidate set: the
   * curves visited so far (`visited`) and now `fcurve` are eased, the rest
   * are as they were (`keys0`, `updates0`, `mods0`).
   */
  method EaseNext(fcurve: FCurve, s: EaseSettings, ghost cs: set<FCurve>, ghost visited: seq<FCurve>,
                  ghost keys0: map<FCurve, seq<Keyframe>>, ghost updates0: map<FCurve, nat>,
                  ghost mods0: map<FCurve, seq<Modifier>>)
    returns (changed: bool)
    requires fcurve in cs && fcurve !in visited
    requires cs <= keys0.Keys && cs <= updates0.Keys && cs <= mods0.Keys
    requires EasedSoFar(cs, visited, keys0, updates0, mods0, s)
    modifies fcurve
    ensures EasedSoFar(cs, visited + [fcurve], keys0, updates0, mods0, s)
    ensures changed == HasAffected(keys0[fcurve], s.onlySelectedKeys)
  {
    assert CurveEased(fcurve, false,
                     keys0[fcurve], updates0[fcurve], mods0[fcurve], s);
    changed := EaseCurve(fcurve, s);
    forall c | c in cs
      ensures CurveEased(c, c in visited + [fcurve], keys0[c], updates0[c], mods0[c], s)
    {
      if c != fcurve {
        assert c in visited + [fcurve] <==> c in visited;
      }
    }
  }

  /**
   * The curve loop of `execute`: every curve of `fcurves` gets the preset and
   * one `update()` when it had a targeted key; the other curves of `cs` are
   * untouched. `lists` are the curves' keys afterwards, which hold a targeted
   * key exactly when they did before.
   */
  method EaseCurves(fcurves: seq<FCurve>, s: EaseSettings, ghost cs: set<FCurve>)
    returns (edited: nat, ghost lists: seq<seq<Keyframe>>)
    requires Distinct(fcurves) && forall c :: c in fcurves ==> c in cs
    modifies cs
    ensures forall c :: c in cs ==>
      CurveEased(c, c in fcurves, old(c.keys), old(c.updates), old(c.modifiers), s)
    ensures |lists| == |fcurves| && forall j :: 0 <= j < |fcurves| ==> lists[j] == fcurves[j].keys
    ensures edited == EditedCount(lists, s.onlySelectedKeys)
  {
    ghost var keys0 := map c | c in cs :: c.keys;
    ghost var updates0 := map c | c in cs :: c.updates;
    ghost var mods0 := map c | c in cs :: c.modifiers;
    assert EasedSoFar(cs, [], keys0, updates0, mods0, s);
    edited := EaseLoop(fcurves, s, cs, keys0, updates0, mods0);
    lists := CurveKeys(fcurves);
    EasedCount(fcurves, keys0, s, lists);
  }

  /** The `for` loop itself, against the candidates' state before it (`keys0`, `updates0`, `mods0`). */
  method EaseLoop(fcurves: seq<FCurve>, s: EaseSettings, ghost cs: set<FCurve>,
                  ghost keys0: map<FCurve, seq<Keyframe>>, ghost updates0: map<FCurve, nat>,
                  ghost mods0: map<FCurve, seq<Modifier>>)
    returns (edited: nat)
    requires Distinct(fcurves) && forall c :: c in fcurves ==> c in cs
    requires EasedSoFar(cs, [], keys0, updates0, mods0, s)
    modifies cs
    ensures EasedSoFar(cs, fcurves, keys0, updates0, mods0, s)
    ensures edited == CurvesWithTargets(fcurves, keys0, s.onlySelectedKeys)
  {
    edited := 0;
    ghost var visited: seq<FCurve> := [];
    var i := 0;
    while i < |fcurves|
      invariant 0 <= i <= |fcurves| && visited == fcurves[..i]
      invariant EasedSoFar(cs, visited, keys0, updates0, mods0, s)
      invariant edited == CurvesWithTargets(visited, keys0, s.onlySelectedKeys)
    {
      var fcurve := fcurves[i];
      assert fcurves[..i + 1] == visited + [fcurve];
      var changed := EaseNext(fcurve, s, cs, visited, keys0, updates0, mods0);
      CurvesWithTargetsSnoc(visited, fcurve, keys0, s.onlySelectedKeys);
      edited := edited + if changed then 1 else 0;
      visited := visited + [fcurve];
      i := i + 1;
    }
    assert visited == fcurves;
  }

  /** Easing keeps which curves have a targeted key, so the count over the eased keys is the count before. */
  lemma {:induction false} EasedCount(fs: seq<FCurve>, keys0: map<FCurve, seq<Keyframe>>, s: EaseSettings,
                                      lists: seq<seq<Keyframe>>)
    requires |lists| == |fs|
    requires forall j :: 0 <= j < |fs| ==>
      fs[j] in keys0 && lists[j] == EasedKeys(keys0[fs[j]], s.preset, s.affectHandles, s.onlySelectedKeys)
    ensures EditedCount(lists, s.onlySelectedKeys) == CurvesWithTargets(fs, keys0, s.onlySelectedKeys)
  {
    if fs != [] {
      var n := |fs| - 1;
      EasedCount(fs[..n], keys0, s, lists[..n]);
      EasedKeysHasAffected(keys0[fs[n]], s.preset, s.affectHandles, s.onlySelectedKeys);
    }
  }

  /**
   * `ANIMATIONQOL_OT_apply_ease_preset.execute`. Every gathered curve gets
   * the preset on its targeted keys and one `update()` when it had one;
   * every other candidate curve is untouched. `edited` counts the curves
   * with a targeted key; none (including no curves at all) cancels.
   */
  method Execute(ctx: AnimContext, s: EaseSettings)
    returns (status: Status, edited: nat, ghost lists: seq<seq<Keyframe>>)
    requires forall c :: c in CandidateCurves(ctx) ==> allocated(c)
    modifies CandidateCurves(ctx)
    ensures var fcurves := Gather(ctx, s.onlySelectedCurves, s.includeShapeKeys);
      forall c :: c in CandidateCurves(ctx) ==>
        CurveEased(c, c in fcurves, old(c.keys), old(c.updates), old(c.modifiers), s)
    ensures var fcurves := Gather(ctx, s.onlySelectedCurves, s.includeShapeKeys);
      |lists| == |fcurves| && forall j :: 0 <= j < |fcurves| ==> lists[j] == fcurves[j].keys
    ensures edited == EditedCount(lists, s.onlySelectedKeys)
    ensures status == (if edited == 0 then Cancelled else Finished)
  {
    var fcurves := GatherTargetFcurves(ctx, s.onlySelectedCurves, s.includeShapeKeys);
    GatheredWithin(ctx, s.onlySelectedCurves, s.includeShapeKeys);
    if fcurves == [] {
      return Cancelled, 0, [];
    }
    edited, lists := EaseCurves(fcurves, s, CandidateCurves(ctx));
    status := if edited == 0 then Cancelled else Finished;
  }
}
