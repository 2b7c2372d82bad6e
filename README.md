# YABQOLA animation and scene tools, modelled in Dafny

YABQOLA is a Blender add-on made of small operators. Each operator reads a
few scene or operator settings and then edits host-owned data in place:
keyframes on animation curves, object transforms, modifiers on curves,
camera and render settings. This project models the operators and the
helper modules they share:

- **Curve gathering and shifting** (`utils/animation.py`). This covers
  de-duplication by curve key, the selected-curves-first rule and
  `shift_keyframes`.
- **Keyframe offset, uniform and cascading** (`operators/keyframe_offset.py`,
  `YABQOLA/operators/keyframe_offset.py`). The cascading modes include the
  name-ordered sort.
- **Stagger timing** (`operators/stagger_timing.py`,
  `animation_qol/operators/stagger_timing.py`).
- **Noise-modifier randomiser** (`operators/noise_randomizer.py`).
- **Ease presets** (`operators/ease_presets.py`).
- **Motion hold** (`operators/motion_hold.py`).
- **Automatic blinks on a shape key** (`operators/auto_blink.py`).
- **Object and pose flips** (`animation_qol/operators/quick_flip.py` and
  `animation_qol/utils/objects.py`).
- **Scene cleanup** (`animation_qol/operators/scene_cleanup.py`).
- **Render presets** (`utils/render.py`).
- **Camera helpers and the reference-camera operator** (`utils/camera.py`,
  `operators/reference_camera.py`).
- **Drop to surface** (`operators/physics_dropper.py`).
- **Interactive quick snap** (`operators/quick_snap.py`).

Host objects whose fields an operator changes are Dafny classes: animation
curves, scene objects, shape-key blocks, pose bones, camera data, render
settings and the quick-snap operator. Their mutable parts are fields that
the methods reassign. The operators are methods with `modifies` clauses.
Each method is proved against a specification function. Its `ensures`
gives the new state of every object it may touch, and lemmas prove what
the specification means.

Several things the host supplies become inputs:

- random draws (`rand`, `variation`);
- the trigonometry (`HostMath`);
- evaluated meshes and ray-cast hits (`meshOf`, `hitsOf`);
- projected screen distances (`SnapMesh`, `Projection`);
- loaded images.

Integers are unbounded. Frame offsets are Blender `IntProperty` values,
so they are `int`. Coordinates and handle times are `real`.

Modules: `Common` (small shared helpers), `HostData` (the host's objects),
`Animation`, `KeyframeOffset`, `YabqolaKeyframeOffset`, `StaggerTiming`,
`QolStaggerTiming`, `NoiseRandomizer`, `EasePresets`, `MotionHold`,
`AutoBlink`, `Objects`, `QuickFlip`, `SceneCleanup`, `Render`, `Camera`,
`ReferenceCamera`, `PhysicsDropper` and `QuickSnap`.

## Model

| member | source | states |
|---|---|---|
| Animation.FcurveKey | utils/animation.py:18-21 | The de-duplication key is the owner's pointer, or the curve's own identity when it has no owner, together with its data path and array index. |
| Animation.ObjectCurvesOrder | utils/animation.py:24-42 | No object yields no curves. Otherwise the action curves come first, followed by the shape-key curves exactly when shape keys are included. |
| Animation.FlatCurvesMember | utils/animation.py:76-77 | A curve is among the curves of an object list iff one of the objects yields it. |
| Animation.KeysDistinctImpliesDistinct | utils/animation.py:18-21 | Curves with pairwise different keys are pairwise different curves. |
| Animation.CollectSound | utils/animation.py:57-65 | One gathering pass keeps only unlocked input curves whose keys were unseen, with no key twice. Every unlocked input curve has its key either seen before or kept. |
| Animation.CollectConcat | utils/animation.py:53-86 | Gathering over two lists equals gathering the first and then the second, with the first's kept keys added to `seen`: the selection loop and the object loop share one `seen` set. |
| Animation.ContextObjects | utils/animation.py:70-74 | The objects visited are the selected ones, then the active object when there is one and it is not already selected. |
| Animation.ShapeKeyCurvesIncluded | utils/animation.py:35-42 | A curve found without shape keys is also found with them. |
| Animation.GatherWellFormed | utils/animation.py:45-86 | The gathered curves are unlocked, pairwise different by key and by identity, and drawn from the context. |
| Animation.GatherSelectionFirst | utils/animation.py:56-68 | The de-duplicated unlocked selection always comes first. When that selection is non-empty and `only_selected_curves` is set, the result is exactly that selection. |
| Animation.GatherFallbackRedundant | utils/animation.py:67-86 | If the call with `only_selected_curves` returns nothing, the call without it returns nothing as well. |
| Animation.CollectInto | utils/animation.py:57-65 | The selection loop appends what one gathering pass keeps, and `seen` stays the set of keys of the result. |
| Animation.GatherObjects | utils/animation.py:76-84 | The object loop appends, after the selected curves, what one gathering pass over all the objects' curves keeps, starting from the selected curves' keys. |
| Animation.GatherTargetFcurves | utils/animation.py:45-86 | `gather_target_fcurves` returns exactly the specification `Gather`. The lemmas above prove what `Gather` holds. |
| Animation.ShiftedKeysPointwise | utils/animation.py:108-114 | Exactly the affected keys move: all keys, or only the selected ones under `only_selected`. A moved key's time and both handle times move by the delta. Values and selection never change. |
| Animation.AffectedCountAll | utils/animation.py:107-114 | Without `only_selected`, the count of moved keys is the number of keys. |
| Animation.AffectedCountSelected | utils/animation.py:109-114 | With `only_selected`, the count of moved keys is the number of selected keys. |
| Animation.AffectedCountShifted | utils/animation.py:108-114 | A shift leaves selection alone, so a later shift moves as many keys. |
| Animation.ShiftCompose | utils/animation.py:111-113 | Two shifts equal one shift by the sum of their deltas. |
| Animation.ShiftInverse | utils/animation.py:111-113 | A zero shift changes nothing, and a shift by `-delta` undoes a shift by `delta`. |
| Animation.ShiftNothing | utils/animation.py:111-113 | A zero delta leaves the keys of every curve as they are. |
| Animation.ShiftKeyframes | utils/animation.py:89-119 | The curve's keys become the shifted keys and the result is the number of affected keys. `update()` runs once exactly when that number is positive. The modifiers are untouched. |
| Animation.HasAffectedCount | utils/animation.py:107-119 | A curve has a key to touch iff `shift_keyframes` would count one on it. |
| Animation.EditedCountZero | operators/motion_hold.py:99-124 | No curve counts as edited iff none of them has a key to touch. |
| Animation.DeltaSumDistinct | operators/keyframe_offset.py:92-105 | When no curve repeats among the jobs, each curve moves by exactly its own job's delta. |
| Animation.DeltaSumAbsent | operators/keyframe_offset.py:92-105 | A curve that no job names does not move. |
| Animation.RunJob | operators/keyframe_offset.py:99-105 | A zero delta is skipped. Any other delta is one `shift_keyframes` call, which extends the curve's state by that job and counts its affected keys. |
| Animation.ShiftJobs | operators/keyframe_offset.py:92-105 | After the loop, each curve is shifted by the sum of its jobs' deltas and updated once per non-zero call that has affected keys. Its modifiers are unchanged. The total is the sum of the per-call counts. |
| Animation.ShiftJobsWithin | operators/keyframe_offset.py:92-105 | Every curve of a set holding the job curves ends shifted by the sum of its deltas (zero for the others), with its modifiers unchanged. Its update count grows by the number of its non-zero jobs when it has a key to touch. |
| Animation.SortedRange | utils/animation.py:122-125 | The smaller bound comes first, and the pair is the two inputs in some order. |
| MotionHold.HoldOffset | operators/motion_hold.py:82 | The hold is `hold_frame_count` frames long, and never shorter than one frame. |
| MotionHold.NewKey | operators/motion_hold.py:38-64 | The new key sits at the hold frame with the source's value, is selected and has the configured interpolation. An inherited BEZIER source mirrors its right handle into the new left handle, puts the right handle 0.001 frame later, and makes the types the source's right type and AUTO_CLAMPED. Otherwise a CONSTANT hold gets FREE handles 0.1 frame either side at the key's value, and anything else gets AUTO_CLAMPED handles. |
| MotionHold.SameTimes | operators/motion_hold.py:25-27 | Whether a key exists near a frame depends only on the key times. |
| MotionHold.HoldStepShape | operators/motion_hold.py:103-116 | Visiting a key changes at most that key, which turns CONSTANT in a CONSTANT hold. It appends at most one key, and only for a source key with no key within 1e-4 of its hold frame; the appended key is that source's new key. |
| MotionHold.HoldStepKeepsExisting | operators/motion_hold.py:38-46 | A visit never removes a key time. |
| MotionHold.HoldStepCovers | operators/motion_hold.py:38-46 | After a source key is visited, a key lies at its hold frame. |
| MotionHold.HoldFromPrefix | operators/motion_hold.py:101-116 | The pass keeps every original key in place, changed only by the CONSTANT marking of visited sources. |
| MotionHold.HoldFromKeepsExisting | operators/motion_hold.py:101-116 | A key time present before the rest of the pass is still present after it. |
| MotionHold.HoldFromCovers | operators/motion_hold.py:101-116 | Every source key still to be visited has a key at its hold frame once the pass ends. |
| MotionHold.HoldStepFresh | operators/motion_hold.py:38-46 | A visit never inserts a key within 1e-4 of an existing key. |
| MotionHold.HoldFromFresh | operators/motion_hold.py:101-116 | Every key the pass adds lies more than 1e-4 from every key before it. |
| MotionHold.HoldStepSources | operators/motion_hold.py:103-113 | A visit keeps the keys still to be visited and appends only the duplicate of a source key. |
| MotionHold.HoldFromSources | operators/motion_hold.py:101-116 | The pass only ever appends duplicates of the source keys it visits. |
| MotionHold.HoldKeysSpec | operators/motion_hold.py:15-64 | Over one curve: every original key stays where it was, a source key of a CONSTANT hold turning CONSTANT even when its duplicate was skipped. Every source key has a key at its hold frame afterwards. Every added key is a source's duplicate, inserted where no key lay within 1e-4. |
| MotionHold.HoldFromNoSources | operators/motion_hold.py:15-22 | Without a source key the pass changes nothing. |
| MotionHold.AllKeysHeld | operators/motion_hold.py:20-22 | Without `only_selected_keys` every key is a source, so every key gets a key at its hold frame. |
| MotionHold.DuplicateKeyframe | operators/motion_hold.py:30-64 | `_duplicate_keyframe` leaves the keys alone when a key already lies at the new frame, else inserts the new key. Modifiers and the update count are unchanged. |
| MotionHold.VisitKey | operators/motion_hold.py:103-116 | One turn of the inner loop yields `HoldStep`. It reports whether the key was a source, and every other original key is unchanged. |
| MotionHold.HoldCurve | operators/motion_hold.py:101-116 | The inner loop turns the keys into `HoldKeys` of the old keys. `changed` holds iff the curve had a source key. |
| MotionHold.HoldKeysHasAffected | operators/motion_hold.py:103-116 | A curve has a source key after the pass iff it had one before. |
| MotionHold.EditCurve | operators/motion_hold.py:101-120 | One curve gets the hold pass and then exactly one `update()` when it had a source key. |
| MotionHold.HoldNext | operators/motion_hold.py:101-120 | One curve step keeps every curve visited so far held and every other candidate as it was. |
| MotionHold.HoldCurves | operators/motion_hold.py:99-120 | Every gathered curve is held, every other candidate is untouched, and `edited` counts the curves whose new keys hold a source key. |
| MotionHold.HoldLoop | operators/motion_hold.py:99-120 | The loop ends with all the listed curves held, and `edited` counts the curves that had a source key beforehand. |
| MotionHold.HeldCount | operators/motion_hold.py:99-120 | Counting the curves with a source key gives the same number over the held keys as over the keys before. |
| MotionHold.Execute | operators/motion_hold.py:75-126 | Every gathered curve is held, and every other candidate curve is untouched. `edited` counts the curves with a source key, inserted or not, and zero cancels (no curves included). |
| KeyframeOffset.StrLessIrreflexive | operators/keyframe_offset.py:90 | No name sorts before itself under Python's string order. |
| KeyframeOffset.StrLessTransitive | operators/keyframe_offset.py:90 | Python's string order is transitive. |
| KeyframeOffset.StrLessTotal | operators/keyframe_offset.py:90 | Two different names are always ordered one way or the other. |
| KeyframeOffset.KeyLessOrder | operators/keyframe_offset.py:13-20 | The tuple order on `(id_name, group_name, data_path, array_index)` is a strict total order. |
| KeyframeOffset.KeyLessDistinct | operators/keyframe_offset.py:13-20 | Keys ordered one before the other are different keys. |
| KeyframeOffset.InsertByNameMultiset | operators/keyframe_offset.py:90 | Inserting a curve adds exactly that curve. |
| KeyframeOffset.InsertByNameSorted | operators/keyframe_offset.py:90 | Inserting into a name-sorted list keeps it sorted. |
| KeyframeOffset.InsertByNameStable | operators/keyframe_offset.py:90 | The inserted curve lands after every curve with its own key, and curves with one key keep their relative order. |
| KeyframeOffset.InsertByNameDistinct | operators/keyframe_offset.py:90 | Inserting a new curve into a duplicate-free list keeps it duplicate-free. |
| KeyframeOffset.SortByNameSorted | operators/keyframe_offset.py:88-90 | The name-mode list is ordered by `_sort_key_by_name`. |
| KeyframeOffset.SortByNamePermutation | operators/keyframe_offset.py:88-90 | The name-mode list is a permutation of the gathered curves. |
| KeyframeOffset.SortByNameStable | operators/keyframe_offset.py:88-90 | Curves with equal keys keep their gathered order, as Python's stable `sorted` does. |
| KeyframeOffset.SortByNameDistinct | operators/keyframe_offset.py:88-90 | Sorting keeps a duplicate-free list duplicate-free. |
| KeyframeOffset.SortByNameCorrect | operators/keyframe_offset.py:88-90 | Sorting by name yields a sorted, stable permutation that keeps a duplicate-free list duplicate-free. |
| KeyframeOffset.ResolveConfig | operators/keyframe_offset.py:68-75 | With `use_scene_settings` the delta, key filter and mode come from the scene. Otherwise they come from the operator, and only selected keys move unless `affect_all_keys` is set. |
| KeyframeOffset.OffsetJobs | operators/keyframe_offset.py:92-105 | There is one shift per ordered curve. |
| KeyframeOffset.OrderedTargetsWellFormed | operators/keyframe_offset.py:81-90 | The targets are unlocked, distinct and drawn from the context. They are the gathered curves, sorted by name in name mode and unchanged in the other modes. They are empty exactly when even the fallback gather finds nothing. |
| KeyframeOffset.OffsetJobsDeltas | operators/keyframe_offset.py:92-105 | The curve at position `i` moves by the full delta in uniform mode and by `frame_delta * i` in the cascading modes, so the first cascaded curve never moves. A curve that is not a target never moves. |
| KeyframeOffset.OffsetDeltaSpec | operators/keyframe_offset.py:77-105 | The delta each curve receives overall: zero for every curve when the configured delta is zero, otherwise the position-based delta for targets and zero for all other curves. |
| KeyframeOffset.OrderTargets | operators/keyframe_offset.py:81-90 | The gather with the selected-curves restriction is used, falling back to the gather without it when the first is empty. Name mode then sorts the result. |
| KeyframeOffset.ShiftTargets | operators/keyframe_offset.py:92-105 | Every candidate curve's keys end shifted by that curve's delta, with the modifiers untouched. A curve is updated once iff its delta is non-zero and it has a key to touch. `moved_total` is the sum of the per-call counts. |
| KeyframeOffset.Execute | operators/keyframe_offset.py:60-126 | A zero delta or no target cancels with nothing moved. Otherwise every curve is shifted by its delta and updated once when a key moves, and a zero `moved_total` cancels. The reported direction is forward iff the delta is positive. |
| YabqolaKeyframeOffset.ResolveUniformConfig | YABQOLA/operators/keyframe_offset.py:46-51 | The uniform-only copy resolves the delta and key filter the same way, with the mode fixed to uniform. |
| YabqolaKeyframeOffset.UniformDeltas | YABQOLA/operators/keyframe_offset.py:64-66 | Every gathered curve receives the full delta, and no other curve moves. |
| YabqolaKeyframeOffset.Execute | YABQOLA/operators/keyframe_offset.py:38-80 | A zero delta cancels before gathering, and no target cancels. Otherwise every gathered curve moves by the delta and is updated once when a key moves, and a zero total cancels. The direction is forward iff the delta is positive. |
| StaggerTiming.DeltaSumConcat | operators/stagger_timing.py:136-151 | The shift a curve receives from two runs of jobs is the sum of the shifts from each run. |
| StaggerTiming.UnlockedJobsDelta | operators/stagger_timing.py:141-151 | One group's loop moves a locked curve by nothing, and an unlocked curve by the delta once per occurrence. |
| StaggerTiming.UnlockedJobsCurves | operators/stagger_timing.py:145-151 | One group's loop shifts only unlocked curves of that group, each by the group's delta. |
| StaggerTiming.UnlockedJobsAbsent | operators/stagger_timing.py:145-146 | A locked curve, or a curve outside the group, is not moved by the group's loop. |
| StaggerTiming.UnlockedJobsOnce | operators/stagger_timing.py:145-151 | An unlocked curve listed once in a group moves by exactly the group's delta. |
| StaggerTiming.UnlockedJobsZero | operators/stagger_timing.py:137-139 | A zero delta moves no curve. |
| StaggerTiming.GroupJobsCurves | operators/stagger_timing.py:136-151 | The stagger shifts only unlocked curves drawn from one of the groups. |
| StaggerTiming.GroupJobsSnoc | operators/stagger_timing.py:136-137 | Adding a last group adds that group's shifts by `index * step`. |
| StaggerTiming.GroupJobsUnmoved | operators/stagger_timing.py:136-139 | A locked curve, or a curve only in the first group (whose delta is zero), does not move. |
| StaggerTiming.GroupJobsDelta | operators/stagger_timing.py:136-151 | An unlocked curve that belongs to group `i` alone, once, moves by exactly `i * step`. |
| StaggerTiming.BoneGroups | operators/stagger_timing.py:164-169 | There is one curve group per pose bone. |
| StaggerTiming.ObjectGroups | operators/stagger_timing.py:136-144 | There is one curve group per object. |
| StaggerTiming.StaggerObjects | operators/stagger_timing.py:126-153 | `_stagger_objects` leaves every curve shifted by the sum of its deltas, with the modifiers untouched and one update per non-zero job when it has a key to touch. The total is the sum of the per-call counts. |
| StaggerTiming.StaggerPoseBones | operators/stagger_timing.py:155-178 | The pose-bone helper as intended: every bone curve ends shifted by the sum of its deltas, with one update per non-zero job when it has a key to touch, and the total is the sum of the per-call counts. |
| StaggerTiming.StaggerPoseBonesAsWritten | operators/stagger_timing.py:155-178 | The helper as written raises before touching any curve iff there are at least two bones and the step is non-zero. |
| StaggerTiming.ResolveStaggerConfig | operators/stagger_timing.py:61-70 | The step and the three flags come from the scene settings with `use_scene_settings`, else from the operator. |
| StaggerTiming.PoseBoneList | operators/stagger_timing.py:76-79 | The selected pose bones, followed by the active bone when it is not already selected. |
| StaggerTiming.ObjectList | operators/stagger_timing.py:93-97 | The selected objects. With none selected, the active object alone, or nothing. |
| StaggerTiming.BonePathCurves | operators/stagger_timing.py:164-171 | On the bone path only unlocked curves of the listed bones are shifted, reversed or not. |
| StaggerTiming.ObjectPathCurves | operators/stagger_timing.py:136-146 | On the object path only unlocked curves of the listed objects are shifted, reversed or not. |
| StaggerTiming.StaggerJobsShape | operators/stagger_timing.py:72-114 | A zero step, or the object path with fewer than two objects, shifts nothing. Every shift targets an unlocked candidate curve, from the bones on the bone path and from the objects on the object path. |
| StaggerTiming.StaggerBoneDelta | operators/stagger_timing.py:81-91 | On the bone path, an unlocked curve of bone `i` alone moves by `i * step`, and the first bone's curves never move. |
| StaggerTiming.StaggerObjectDelta | operators/stagger_timing.py:99-114 | On the object path, an unlocked curve of object `i` alone moves by `i * step`. |
| StaggerTiming.StaggerLockedUnmoved | operators/stagger_timing.py:145-146 | A locked curve never moves. |
| StaggerTiming.RunStagger | operators/stagger_timing.py:76-114 | After the path choice and the helper call, every candidate curve is shifted by its deltas, with one update per non-zero job when it has a key to touch, and the total is the sum of the per-call counts. |
| StaggerTiming.RunBonePath | operators/stagger_timing.py:81-91 | The bone path, with the helper as intended, gives the specified shifts, update counts and total. |
| StaggerTiming.RunObjectPath | operators/stagger_timing.py:92-114 | The object path gives the specified shifts, update counts and total. |
| StaggerTiming.Execute | operators/stagger_timing.py:53-124 | With the bone path as intended: every candidate curve ends shifted by the sum of its jobs' deltas, with the modifiers untouched and one update per non-zero job when it has a key to touch. A zero step cancels with nothing moved, and the operator finishes iff the total is positive. |
| QolStaggerTiming.QolMatchesObjectPath | animation_qol/operators/stagger_timing.py:74-103 | This package's operator makes exactly the shifts of the full operator's object path, on unlocked curves of the listed objects. |
| QolStaggerTiming.Execute | animation_qol/operators/stagger_timing.py:51-113 | Every candidate curve ends shifted by the sum of its deltas, with one update per non-zero job when it has a key to touch. A zero step or fewer than two objects moves nothing. The operator finishes iff something moved. |
| NoiseRandomizer.RangesOf | operators/noise_randomizer.py:48-53 | Each of the four sampling ranges is ordered, smaller bound first. |
| NoiseRandomizer.UniformWithin | operators/noise_randomizer.py:78-81 | A draw in [0, 1] scaled by `random.uniform` lands inside its range. |
| NoiseRandomizer.Randomize | operators/noise_randomizer.py:78-81 | Randomising keeps the modifier's kind, and the scale is never below 0.001. |
| NoiseRandomizer.NoiseCount | operators/noise_randomizer.py:65 | There are never more NOISE modifiers than modifiers. |
| NoiseRandomizer.NoiseCountZero | operators/noise_randomizer.py:65-66 | The NOISE list is empty iff no modifier of the curve is NOISE. |
| NoiseRandomizer.Randomized | operators/noise_randomizer.py:77-82 | Randomising a curve's modifiers keeps their number. |
| NoiseRandomizer.RandomizedAt | operators/noise_randomizer.py:77-82 | A modifier keeps its kind. A non-NOISE modifier is untouched, and a NOISE one gets a scale of at least 0.001. |
| NoiseRandomizer.RandomizedShape | operators/noise_randomizer.py:77-82 | Over a whole curve, kinds are kept, non-NOISE modifiers are untouched, and NOISE modifiers are floored at 0.001. Each NOISE modifier takes the four draws after those of the NOISE modifiers before it. |
| NoiseRandomizer.NoiseCountSameKinds | operators/noise_randomizer.py:65 | Lists with the same kinds in the same order have as many NOISE modifiers. |
| NoiseRandomizer.CurveResultShape | operators/noise_randomizer.py:64-82 | A curve gets one new NOISE modifier, at the end, iff it had none and creation is on. The old modifiers keep their order and kinds, and the non-NOISE ones their values. `affected` counts the NOISE modifiers afterwards. A curve with none and creation off is untouched. |
| NoiseRandomizer.CurveResultWithin | operators/noise_randomizer.py:48-53 | With draws in [0, 1], every NOISE modifier ends with phase, offset and strength inside the sorted ranges, and a scale between the range's bounds floored at 0.001. |
| NoiseRandomizer.RandomizedUpToStep | operators/noise_randomizer.py:77-82 | One turn of the modifier loop randomises exactly the next modifier. |
| NoiseRandomizer.RandomizeModifiers | operators/noise_randomizer.py:77-82 | The modifier loop randomises the curve's modifiers as specified and counts the NOISE ones, taking four draws each. Keys and updates are untouched. |
| NoiseRandomizer.RandomizeCurve | operators/noise_randomizer.py:64-82 | One turn of the curve loop gives the specified outcome: new modifiers, whether one was created, how many were randomised. It takes four draws per randomised modifier and touches neither keys nor updates. |
| NoiseRandomizer.Pass | operators/noise_randomizer.py:64-82 | The curve loop has one outcome per curve. |
| NoiseRandomizer.PassSnoc | operators/noise_randomizer.py:64 | A further curve continues the draws where the curves before it stopped. |
| NoiseRandomizer.PassDraws | operators/noise_randomizer.py:64-82 | Curve `j`'s outcome uses the draws that follow the four per modifier randomised on curves `0..j-1`. |
| NoiseRandomizer.CurveResultCounts | operators/noise_randomizer.py:66-82 | A created modifier is always randomised. A curve randomises nothing iff it has no NOISE modifier and creation is off. |
| NoiseRandomizer.PassTotals | operators/noise_randomizer.py:61-86 | The run randomises nothing, and cancels, iff every curve has no NOISE modifier with creation off. Never more modifiers are created than randomised. |
| NoiseRandomizer.ResultForAbsent | operators/noise_randomizer.py:64 | A curve not in the target list keeps its modifiers. |
| NoiseRandomizer.ResultForAt | operators/noise_randomizer.py:64 | A target curve gets its own outcome's modifiers. |
| NoiseRandomizer.NoiseNext | operators/noise_randomizer.py:64-82 | One curve step gives that curve its outcome and leaves every other curve as it was. |
| NoiseRandomizer.NoiseLoop | operators/noise_randomizer.py:61-82 | The curve loop leaves every target with its outcome and every other curve as it was. The counters are the totals of the outcomes. |
| NoiseRandomizer.NoiseStep | operators/noise_randomizer.py:64-82 | One turn of the curve loop extends the visited prefix and its outcomes by one curve. |
| NoiseRandomizer.NoiseCurves | operators/noise_randomizer.py:61-82 | Over distinct targets: each target gets its outcome, drawn after the curves before it, and every other curve is untouched. `created` and `affected` are the totals. |
| NoiseRandomizer.Execute | operators/noise_randomizer.py:32-92 | No target cancels with nothing changed. Otherwise each gathered curve gets its outcome in order and the other candidates are untouched. Keys and updates never change, and nothing randomised cancels. |
| EasePresets.ApplyPreset | operators/ease_presets.py:26-53 | Only the interpolation and the handle types change. LINEAR and CONSTANT set those interpolations, and every ease preset sets BEZIER. Handle types change only with `affect_handles`, never under CONSTANT: VECTOR/VECTOR for LINEAR, AUTO_CLAMPED/VECTOR for ease in, VECTOR/AUTO_CLAMPED for ease out, AUTO_CLAMPED on both sides for ease in-out. |
| EasePresets.ApplyPresetIdempotent | operators/ease_presets.py:26-53 | Applying a preset twice is the same as applying it once. |
| EasePresets.EasedKeys | operators/ease_presets.py:89-96 | Easing keeps the number of keys. |
| EasePresets.EasedKeysPointwise | operators/ease_presets.py:15-23 | A key left out by `only_selected_keys` is untouched. Positions, values, handle positions and selection never change. |
| EasePresets.EasedKeysIdempotent | operators/ease_presets.py:89-96 | Running the preset pass twice on a curve equals running it once. |
| EasePresets.EasedKeysHasAffected | operators/ease_presets.py:15-23 | Easing does not change which keys are targeted. |
| EasePresets.EaseKeys | operators/ease_presets.py:91-96 | The inner loop eases the curve's keys, and `changed` holds iff the curve has a targeted key. Modifiers and updates are untouched. |
| EasePresets.EaseCurve | operators/ease_presets.py:89-100 | One curve is eased, then gets one `update()` iff it had a targeted key. |
| EasePresets.EaseNext | operators/ease_presets.py:89-100 | One curve step keeps every visited curve eased and every other candidate as it was. |
| EasePresets.EaseCurves | operators/ease_presets.py:87-100 | Every listed curve is eased, every other candidate is untouched, and `edited` counts the curves with a targeted key. |
| EasePresets.EaseLoop | operators/ease_presets.py:87-100 | The loop counts the curves that had a targeted key before it started. |
| EasePresets.EasedCount | operators/ease_presets.py:96-100 | Counting curves with a targeted key gives the same number after easing as before. |
| EasePresets.Execute | operators/ease_presets.py:64-106 | Every gathered curve is eased and updated once iff it had a targeted key, and every other candidate is untouched. No curve with a targeted key, including no curves at all, cancels. |
| AutoBlink.Normalize | operators/auto_blink.py:42-49 | The range is the two settings in order. The interval, close and open counts are at least one, and randomness and hold at least zero; each is the setting whenever that already meets its bound. A blink is at least two frames long. |
| AutoBlink.NormalizeKeepsValid | operators/auto_blink.py:42-48 | Settings that are already ordered and within bounds pass through normalisation unchanged. |
| AutoBlink.Gap | operators/auto_blink.py:97-98 | The gap to the next blink is at least one frame, and at least the interval plus the variation drawn. |
| AutoBlink.StartsShape | operators/auto_blink.py:80-99 | The blinks start at the range start and increase. Each lies in the range and has reopened by `frame_end`, and each starts at least one frame after the previous one has reopened. |
| AutoBlink.StartsSpacing | operators/auto_blink.py:97-99 | With variation draws within `±randomness`, consecutive blinks are separated by between `max(1, interval - randomness)` and `max(1, interval + randomness)` frames. |
| AutoBlink.ObjectWrites | operators/auto_blink.py:76-99 | An object with the shape key gets at least the two baseline keys. |
| AutoBlink.ApplyWritesUntouched | operators/auto_blink.py:21-23 | A frame that no insert writes keeps its key, or still has none. |
| AutoBlink.ApplyWritesLastWins | operators/auto_blink.py:21-23 | A frame holds the value of the last insert at that frame. |
| AutoBlink.ApplyWritesKeys | operators/auto_blink.py:21-23 | The keyed frames afterwards are the old ones plus every frame written. |
| AutoBlink.ApplyWritesUniform | operators/auto_blink.py:21-23 | A frame written only with one value holds that value. |
| AutoBlink.ScheduleWritesFrames | operators/auto_blink.py:83-93 | Blinks inside the range write only inside it. They write zero at the range start and only zero or the strength anywhere. |
| AutoBlink.ObjectKeys | operators/auto_blink.py:76-99 | After one object's pass the shape key is zero at `frame_start` and at `frame_end + 1`. Every new key lies between those frames, and keys outside them are untouched. |
| AutoBlink.BlinkWritesPeak | operators/auto_blink.py:89-93 | One blink leaves the strength at its close frame, and at its hold frame when there is a hold. |
| AutoBlink.BlinkPeaks | operators/auto_blink.py:83-99 | After the whole pass, every scheduled blink still shows the strength at its close frame, and at its hold frame when there is a hold. |
| AutoBlink.InsertKeyframe | operators/auto_blink.py:21-23 | `_insert_keyframe` sets the value and keys it at the frame, replacing a key already at that frame. |
| AutoBlink.EmitBlink | operators/auto_blink.py:84-93 | One blink's four or five inserts are applied in order, leaving the value at zero. |
| AutoBlink.BlinkObject | operators/auto_blink.py:76-101 | One object gets the baseline keys and then its whole schedule. `blink_count` is the number of scheduled blinks, and one draw is taken per blink when randomness is non-zero. |
| AutoBlink.BlinkLoop | operators/auto_blink.py:80-99 | The while loop applies exactly the scheduled blinks and counts them. |
| AutoBlink.BlinkOnce | operators/auto_blink.py:84-99 | One iteration applies one blink and moves `current_frame` to its reopening frame plus the gap. |
| AutoBlink.WithShapeKeys | operators/auto_blink.py:15-18 | The targets are exactly the listed objects that have shape keys, in order. |
| AutoBlink.LeadingSpace | operators/auto_blink.py:60 | `strip` skips exactly the leading characters for which Python's `str.isspace()` holds, the full Unicode set. |
| AutoBlink.TrimmedEnd | operators/auto_blink.py:60 | `strip` drops exactly the trailing characters for which Python's `str.isspace()` holds, the full Unicode set. |
| AutoBlink.Strip | operators/auto_blink.py:60-63 | The stripped name is a slice of the setting with no `str.isspace()` character at either end. It is empty, and the run cancels, iff the name is all such characters. |
| AutoBlink.StripNoBreakSpace | operators/auto_blink.py:60 | A trailing no-break space (U+00A0) is stripped like any other Unicode space. |
| AutoBlink.Plan | operators/auto_blink.py:68-102 | There is one outcome per target object. |
| AutoBlink.Processed | operators/auto_blink.py:101-102 | `processed` never exceeds the number of targets. |
| AutoBlink.MissingNames | operators/auto_blink.py:72-74 | There are never more missing names than targets. |
| AutoBlink.PlanOutcomes | operators/auto_blink.py:69-74 | A target is reported missing, under its own name, iff it lacks the named block. Otherwise its outcome keys that block. |
| AutoBlink.TruncatedMissing | operators/auto_blink.py:106-107 | At most the first five missing names are reported, with "..." iff some were left out. |
| AutoBlink.RunTarget | operators/auto_blink.py:69-102 | One object either reports missing or keys its named block with its writes, leaving the value at zero. Every other block is untouched, and draws advance as the schedule used them. |
| AutoBlink.BlinkTargets | operators/auto_blink.py:65-102 | Every target block ends keyed by the writes of all the objects that share it, in order. `processed` and `missing` are the plan's. |
| AutoBlink.TargetLoop | operators/auto_blink.py:68-102 | The object loop reaches the plan's state for every block and the plan's counts. |
| AutoBlink.TargetStep | operators/auto_blink.py:68-102 | One object step extends the state reached so far by that object's outcome. |
| AutoBlink.Execute | operators/auto_blink.py:34-123 | No target, then an empty stripped name, cancels with nothing changed. Otherwise every target block is keyed as planned, `processed` and `missing` are the plan's, and nothing processed cancels. |
| Objects.CollectionObjectsOwnFirst | animation_qol/utils/objects.py:21-34 | A collection yields its own objects first. Without children they are all it yields. |
| Objects.TreeObjectsChild | animation_qol/utils/objects.py:33-34 | Every object of a child collection, and of that child's descendants, is yielded. |
| Objects.TreeObjectsOrigin | animation_qol/utils/objects.py:27-34 | Every yielded object belongs to one of the collections or to one of their descendants. |
| Objects.Dedupe | animation_qol/utils/objects.py:37-48 | The de-duplicated list has no repeats and holds only listed objects. It holds every listed object that is not `None`. |
| Objects.IndexOf | animation_qol/utils/objects.py:40-47 | The position found is the first occurrence of the object. |
| Objects.DedupeMember | animation_qol/utils/objects.py:37-48 | An object is kept iff it was listed. |
| Objects.DedupeOrder | animation_qol/utils/objects.py:40-47 | Kept objects appear in the order of their first occurrences. |
| Objects.DedupePrefix | animation_qol/utils/objects.py:71-77 | The objects kept from the base list come first, before any child added after it. |
| Objects.DedupeObjects | animation_qol/utils/objects.py:37-48 | The loop with its `seen` set computes exactly the de-duplicated list. |
| Objects.FlatChildrenMember | animation_qol/utils/objects.py:72-74 | An object is among the expanded children iff it is a recursive child of a listed object. |
| Objects.ScopeObjectsMember | animation_qol/utils/objects.py:51-77 | The scope holds exactly the base objects, plus their recursive children when children are included. |
| Objects.ScopeObjectsShape | animation_qol/utils/objects.py:61-77 | The scope has no repeats. The de-duplicated base objects come first. A collection scope without a collection is empty. |
| Objects.GatherScopeObjects | animation_qol/utils/objects.py:51-77 | `gather_scope_objects` returns the specified scope. |
| Objects.Flipped | animation_qol/utils/objects.py:113-115 | Exactly the chosen scale component is negated. |
| Objects.FlippedTwice | animation_qol/utils/objects.py:107-115 | Flipping twice on one axis restores the scale. |
| Objects.ObjectFlip | animation_qol/utils/objects.py:107-115 | A local, unhidden object's scale is flipped on the axis. A linked or hidden object, or `None`, is left alone. Location and selection never change. |
| Objects.IsVisibleCases | animation_qol/utils/objects.py:149-175 | An object is visible iff no criterion is considered, or render is considered and it renders, or the viewport is considered and it shows there. Otherwise it is hidden. |
| QuickFlip.AxisIndex | animation_qol/operators/quick_flip.py:12 | X, Y and Z map one to one onto indices 0, 1 and 2. |
| QuickFlip.Partition | animation_qol/operators/quick_flip.py:50-51 | The armatures and the other objects together hold each target exactly once. |
| QuickFlip.FlipState | animation_qol/utils/objects.py:107-115 | A flippable object's scale is negated on the axis, and every other component is kept. |
| QuickFlip.FlipStateTwice | animation_qol/operators/quick_flip.py:120-121 | Running the object flip twice on one axis restores every scale. |
| QuickFlip.FlipObjects | animation_qol/operators/quick_flip.py:56-57 | The flip loop flips each listed object once and leaves every other object's scale alone. |
| QuickFlip.OthersOfTargets | animation_qol/operators/quick_flip.py:50-51 | The objects to mirror have no repeats and are exactly the non-armature targets. |
| QuickFlip.FlipSmart | animation_qol/operators/quick_flip.py:35-63 | The operator cancels iff the scope is empty. The counts are the armatures and the others. Every non-armature target is flipped, and armature scales are untouched. |
| QuickFlip.FlipPoseOnly | animation_qol/operators/quick_flip.py:74-93 | The operator cancels iff the scope holds no armature, and counts the armatures. |
| QuickFlip.FlipObjectsOnly | animation_qol/operators/quick_flip.py:104-124 | The operator cancels iff the scope holds no non-armature. Otherwise it flips exactly those and counts them. |
| SceneCleanup.CleanupTargetsMember | animation_qol/operators/scene_cleanup.py:18-55 | An object is a target iff it is in the scene and passes every skip rule. |
| SceneCleanup.CleanupTargetsAppend | animation_qol/operators/scene_cleanup.py:28-53 | Scanning two runs of objects gives the targets of the first, then those of the second: scene order is kept. |
| SceneCleanup.CleanupTargetRules | animation_qol/operators/scene_cleanup.py:32-51 | A target respects every enabled rule. It is not linked data when that is excluded, not a light or light probe when lights are kept, not a camera when cameras are kept, and not the active camera when that is kept. At least one visibility criterion is on, and the object is hidden under each criterion that is on. |
| SceneCleanup.GatherCleanupTargets | animation_qol/operators/scene_cleanup.py:18-55 | The scan returns exactly the specified targets, in scene order. |
| SceneCleanup.Names | animation_qol/operators/scene_cleanup.py:59 | The names are the objects' names, one per object. |
| SceneCleanup.FormatPreview | animation_qol/operators/scene_cleanup.py:58-64 | Up to eight names are listed as they are. Longer lists show the first eight and one extra line. |
| SceneCleanup.NatToStringInjective | animation_qol/operators/scene_cleanup.py:63 | Different counts print differently. |
| SceneCleanup.MoreLineInjective | animation_qol/operators/scene_cleanup.py:63 | The "… and N more" line determines N. |
| SceneCleanup.FormatPreviewCounts | animation_qol/operators/scene_cleanup.py:58-64 | Two truncated previews that read the same come from lists of the same length. |
| SceneCleanup.RemainingMember | animation_qol/operators/scene_cleanup.py:145-149 | After the removals, an object remains iff it was in the scene and was not a target. |
| SceneCleanup.CleanupIdempotent | animation_qol/operators/scene_cleanup.py:116-149 | Once the targets are removed, a second run finds nothing to delete. |
| SceneCleanup.Deselect | animation_qol/operators/scene_cleanup.py:138-143 | Every target ends unselected, and every other object keeps its selection. Transforms never change. |
| SceneCleanup.Execute | animation_qol/operators/scene_cleanup.py:108-152 | No target cancels with nothing changed. A dry run cancels with the preview and nothing changed. Otherwise the count is the number of targets, the active object is cleared if it was a target, the targets are deselected and removed, and every other object stays in order. |
| Render.SampleTables | utils/render.py:12-28 | Every preset has a positive render-sample count in both tables, twice its viewport count. |
| Render.OutputRules | utils/render.py:31-71 | Motion blur ends on only for FINAL. Resolution is 50 % for PREVIEW and 100 % otherwise. The movie presets write FFMPEG in an MPEG-4 container and keep the image fields. The still presets keep the container. Quality changes only to 95, for STILL_DRAFT when the format has a quality field. |
| Render.OutputIdempotent | utils/render.py:31-71 | Applying the output preset twice equals applying it once. |
| Render.CyclesRules | utils/render.py:74-102 | Cycles samples come from the table and adaptive sampling is always on. Denoising is off only for PREVIEW. Viewport denoising is switched on by the still and final presets and otherwise kept. |
| Render.CyclesIdempotent | utils/render.py:74-102 | Applying the Cycles preset twice equals applying it once. |
| Render.EeveeRules | utils/render.py:105-135 | Eevee samples come from the table. Motion blur is on only for the still and final presets, and AO and SSR are off only for PREVIEW. The result does not depend on the previous Eevee values. |
| Render.EeveeIdempotent | utils/render.py:105-135 | Applying the Eevee preset twice equals applying it once. |
| Render.ApplyOutputSettings | utils/render.py:31-71 | The output fields become the preset's. Simplify, resolution and pixel aspect are untouched. |
| Render.ApplyCyclesSettings | utils/render.py:74-102 | When Cycles settings exist they become the preset's, and a missing Cycles block is skipped. |
| Render.ApplyEeveeSettings | utils/render.py:105-135 | When Eevee settings exist they become the preset's, and a missing Eevee block is skipped. |
| Render.ApplyRenderPreset | utils/render.py:138-154 | Output fields change only with `adjust_output`, and engine fields only with `adjust_samples`. Simplify is always set, on exactly for PREVIEW, PLAYBLAST and STILL_CLAY. Resolution size and pixel aspect are untouched. |
| Camera.PickSensorFitMeaning | utils/camera.py:108-119 | The fit is never AUTO. Without an image of positive size it is HORIZONTAL. Otherwise it is HORIZONTAL iff the image is at least as wide, relative to its height, as the sensor; a zero sensor height compares against aspect 1. |
| Camera.SetRenderResolutionFromImage | utils/camera.py:93-105 | A missing or empty image changes nothing. Otherwise the render takes the image's pixel size at 100 % with square pixels, and nothing else changes. |
| Camera.TaggedNameProperties | utils/camera.py:76-79 | The display name always ends with the tag. A name that already ends with it is kept, so tagging twice changes nothing more. |
| Camera.TaggedIndicesFlagged | utils/camera.py:65-69 | Every index in `slots_to_remove` names a tagged slot. |
| Camera.TaggedIndicesAscend | utils/camera.py:65-69 | `slots_to_remove` is strictly ascending. |
| Camera.TaggedIndicesComplete | utils/camera.py:65-69 | Every tagged slot's index is in `slots_to_remove`. |
| Camera.TaggedIndicesFacts | utils/camera.py:65-69 | `slots_to_remove` lists exactly the tagged slots, in ascending order. |
| Camera.Untagged | utils/camera.py:65-71 | No slot left after the removal is tagged. |
| Camera.UntaggedAppend | utils/camera.py:65-71 | Removing tagged slots works run by run: the untagged slots of two runs are those of the first, then those of the second. |
| Camera.UntaggedOfUntagged | utils/camera.py:65-71 | A second removal removes nothing. |
| Camera.RemoveStep | utils/camera.py:70-71 | Removing one tagged slot, scanning from the highest index down, takes exactly that slot out. |
| Camera.RemoveDone | utils/camera.py:70-71 | Once the reverse loop has passed the lowest index, the slots are exactly the untagged ones in their old order. |
| Camera.RemoveTaggedSlots | utils/camera.py:65-71 | The reverse removal loop leaves exactly the untagged slots, in order, and changes no other camera field. |
| Camera.NewSlotTagged | utils/camera.py:76-86 | The new slot's image carries the tagged name, so the slot is tagged. |
| Camera.OneTaggedSlot | utils/camera.py:65-90 | After the call exactly one slot is tagged, the new last one, however many there were before. |
| Camera.EnsureCameraBackgroundImage | utils/camera.py:54-90 | With no image, nothing changes. Otherwise the tagged slots are removed, background images are shown, and one new slot is appended: tagged image, alpha 0.7, drawn behind, cropped. A renamed copy enters the library when no image with the tagged name exists. |
| Camera.CropFactor | utils/camera.py:122-127 | The crop factor is positive. It is 1 for a non-positive diagonal, and otherwise the factor that scales the diagonal to the 35 mm diagonal. |
| Camera.LensFromFov | utils/camera.py:130-141 | The lens is computed iff the field of view lies strictly between 0 and 180 degrees, else the ValueError path is taken. A computed lens times twice the half-angle tangent is the sensor size, and is positive for a positive sensor. |
| ReferenceCamera.PresetSensor | utils/camera.py:10-17 | Every sensor preset is a landscape sensor of positive size. |
| ReferenceCamera.ChosenSensor | operators/reference_camera.py:105-109 | The preset's sensor, or the custom width and height for CUSTOM. |
| ReferenceCamera.SensorRejectedOnlyWhenCustom | operators/reference_camera.py:105-113 | Only a custom sensor can be rejected as non-positive. |
| ReferenceCamera.ResolvedImage | operators/reference_camera.py:43-53 | The linked image when set. Otherwise, with a non-empty path, the loaded image or none, and with no path, none. |
| ReferenceCamera.ResolveIsCached | operators/reference_camera.py:43-53 | Once an image is resolved and cached, resolving again returns it whatever a new load would give. |
| ReferenceCamera.ResolveReferenceImage | operators/reference_camera.py:43-53 | The resolved image is returned, and a successful load is stored back into the settings. |
| ReferenceCamera.ComputeLens | operators/reference_camera.py:151-166 | The lens is an error iff the chosen FOV source, horizontal before vertical, lies outside (0, 180) degrees. |
| ReferenceCamera.LensPriority | operators/reference_camera.py:151-166 | Horizontal FOV, then vertical FOV, then the 35 mm equivalent, then the direct focal length. Each gives the lens whose field of view, or crop-scaled equivalent, is the one asked for. |
| ReferenceCamera.StoredLens | operators/reference_camera.py:136 | The stored focal length is never below 1 mm, and is the computed one otherwise. |
| ReferenceCamera.ChosenFit | operators/reference_camera.py:123-128 | The configured fit when overridden, else the image-based choice, which is never AUTO. |
| ReferenceCamera.Apply | operators/reference_camera.py:99-149 | A non-positive sensor cancels with nothing written. Otherwise the image is resolved and cached, and the sensor and fit are written. A lens error then cancels with only those written. On success the lens, the render size (for a usable image) and, when asked, one tagged background slot follow. |
| PhysicsDropper.DropTargetsMeaning | operators/physics_dropper.py:100-108 | The drop targets are exactly the candidates of a droppable kind (mesh, curve, surface, font, meta, grease pencil, empty), with no repeats when the selection has none. |
| PhysicsDropper.GroundObjectsMember | operators/physics_dropper.py:18-35 | Ground objects are always meshes. Without a collision collection they are exactly the scene's meshes that are not being dropped. With one, they are its meshes (children included when asked), even those being dropped. |
| PhysicsDropper.Shifted | operators/physics_dropper.py:61 | A shifted polygon has the same corners, each moved by the offset. |
| PhysicsDropper.ShiftedAll | operators/physics_dropper.py:60-61 | Every polygon of a mesh is shifted by the same offset, and their number and order are kept. |
| PhysicsDropper.MergedWellFormed | operators/physics_dropper.py:45-62 | If every ground mesh is well formed, then every corner of the merged polygon list names a vertex of the merged vertex list. |
| PhysicsDropper.MergeUnfold | operators/physics_dropper.py:49-62 | A non-mesh object, or one the host evaluates to no mesh, adds nothing. A mesh appends its vertices and its polygons, shifted by the number of vertices before it. |
| PhysicsDropper.MergeCorner | operators/physics_dropper.py:57-62 | Each corner of an appended mesh still names the same vertex position inside the merged mesh. |
| PhysicsDropper.BuildMergedMesh | operators/physics_dropper.py:38-68 | There is no tree for no objects, and none iff the merged polygon list is empty. Otherwise the tree is built from exactly the merged vertices and polygons. |
| PhysicsDropper.BestDropMeaning | operators/physics_dropper.py:133-146 | A drop exists iff some corner hit lies more than 1e-6 below its corner, after the contact offset. It is then the drop of such a hit, above 1e-6, and no larger than any qualifying drop. |
| PhysicsDropper.MinDrop | operators/physics_dropper.py:130-149 | The corner loop computes exactly the best drop over the object's corner hits. |
| PhysicsDropper.DroppedLocation | operators/physics_dropper.py:148-153 | With no drop the object stays where it is. Otherwise only its height falls by the drop. |
| PhysicsDropper.DropTargetsLoop | operators/physics_dropper.py:129-154 | Every target is lowered by its own best drop. Other objects stay put, and scale and selection are unchanged. The move count is the number of targets with a drop. |
| PhysicsDropper.DropToSurface | operators/physics_dropper.py:92-184 | Cancels, moving nothing, with no targets, no ground objects or no ground polygons. Otherwise every target with a qualifying hit is lowered by its smallest drop, and the run cancels iff none moved. |
| QuickSnap.MinFirstIndex | operators/quick_snap.py:200 | The position `min` picks lies within the candidate list. |
| QuickSnap.MinFirstMeaning | operators/quick_snap.py:200 | `min` by distance returns a candidate of least distance, and every earlier candidate is strictly farther, so ties go to the first. |
| QuickSnap.Range | operators/quick_snap.py:254 | `range(n)` lists 0 to n-1 in order. |
| QuickSnap.CandidateIndices | operators/quick_snap.py:251-254 | Every vertex examined, from the hit face or from the whole mesh, is a vertex of the mesh. |
| QuickSnap.BestPos | operators/quick_snap.py:256-273 | The kept position is -1 or a vertex within the 14 px threshold. |
| QuickSnap.BestPosMeaning | operators/quick_snap.py:256-277 | A vertex is found iff one lies within 14 px. The one found is no farther than any vertex in reach, and every later vertex in reach is strictly farther, because `<=` lets a tie replace the earlier vertex. |
| QuickSnap.VertexCandidate | operators/quick_snap.py:234-279 | The loop returns the value-level vertex candidate: none for a kind that cannot be snapped or no mesh, else the kept vertex with its distance, which is at most 14 px. |
| QuickSnap.OriginCandidate | operators/quick_snap.py:281-294 | An origin candidate exists iff the origin projects within 16.8 px. It then carries that distance, the origin and the "origin of" caption. |
| QuickSnap.BuildPickInfoChoice | operators/quick_snap.py:170-203 | Without the selected-vertex shortcut, the vertex wins unless the origin is strictly nearer, and the hit point is used when neither exists. When the shortcut is taken, its pick is returned. |
| QuickSnap.ScreenCandidatesMeaning | operators/quick_snap.py:302-312 | Every screen candidate is the origin of one of the objects, within 21 px. Every object whose origin lies within 21 px gives a candidate. |
| QuickSnap.PickOriginFromScreen | operators/quick_snap.py:296-318 | Returns none when no origin is within 21 px, else the info of the first nearest candidate. |
| QuickSnap.ScreenPickMeaning | operators/quick_snap.py:296-318 | The fallback finds a pick iff some object's origin lies within 21 px. The pick is such an object's origin and is at least as near as every other one. |
| QuickSnap.CandidateObjects | operators/quick_snap.py:323-330 | In object mode the candidates are exactly the visible objects of the selection (restricted) or of the view layer. In edit mode they are the objects being edited, and in other modes there are none. |
| QuickSnap.PickPoint | operators/quick_snap.py:136-168 | Without a region there is no pick. A ray hit outside the selection is refused while the source is being picked, and any other hit gives the built pick. With no hit, the screen fallback decides. |
| QuickSnap.TranslateObjects | operators/quick_snap.py:359-362 | Every selected object moves by the translation exactly once. Other objects stay, and scale and selection are unchanged. |
| QuickSnap.SamePointNegligible | operators/quick_snap.py:123-127 | Picking the same point as source and destination gives a translation below 1e-6, so nothing is snapped. |
| QuickSnap.QuickSnapOperator.ResetState | operators/quick_snap.py:95-101 | The tool is back at the source stage with no source point and an empty label. |
| QuickSnap.QuickSnapOperator.Invoke | operators/quick_snap.py:56-78 | Cancels, changing nothing, unless started from the 3D view's window region in object mode with a selection, or in mesh edit mode with selected vertices. Otherwise it resets and runs modally. |
| QuickSnap.QuickSnapOperator.ApplyTranslation | operators/quick_snap.py:358-378 | In object mode every selected object moves by the translation, and the result is whether any was selected. In mesh edit mode the result is whether the host moved vertices. In other modes it is false and nothing moves. Scale and selection never change. |
| QuickSnap.QuickSnapOperator.HandleClick | operators/quick_snap.py:106-134 | No pick blocks and changes nothing. The first pick stores the source and moves to the destination stage. The second pick finishes and resets nothing. It moves the selection by destination minus source unless that is shorter than 1e-6. A source point is held exactly in the destination stage. Scale and selection never change. |
| QuickSnap.QuickSnapOperator.Modal | operators/quick_snap.py:80-93 | Escape or right click cancels and changes nothing. A left press is handled as a click, with the same state per case: no pick keeps running and changes nothing, a source pick stores the point and label and moves to the destination stage, a destination pick finishes and moves the selection in object mode unless the translation is negligible. Every other event passes through unchanged. Scale and selection never change. |

## Left out

- The "settings unavailable" guard at the top of every `execute` is not modelled. The scene settings are always present here.
- `self.report` messages and header texts are not modelled. The counts, the direction flag and the truncated lists they print are modelled.
- Random seeding is not modelled. `random.random()` draws and blink gap variations are inputs (`rand`, `variation`).
- The trigonometry is an input (`HostMath`): `math.tan` of the half angle and `math.hypot`. Only the positivity of the half-angle tangent inside (0, 180) degrees is assumed of it.
- Floating-point rounding is not modelled. Coordinates are exact reals, so the thresholds `14 * 1.2` and `14 * 1.5` are exactly 16.8 and 21.
- Keyframe times and handle x-coordinates are reals, and `frame_delta` and the other offsets are unbounded integers. Blender's 32-bit `IntProperty` limits are not modelled.
- `ensure_active_scene_camera` is not modelled. The operator works on a camera datablock that is given, and the creation of a camera object and its datablock is host work.
- Image loading from disk is not modelled. `bpy.data.images.load` and the file-existence check are an input: the image a load returns, or none when it fails.
- `ANIMATIONQOL_OT_refcam_load_image` is not modelled. It is the load step above followed by `Camera.SetRenderResolutionFromImage`.
- ReferenceCamera.Apply: the scene is assumed present, so the `if scene:` guard around the resolution update is always taken.
- Copying an image datablock for the tagged background slot is modelled as a new library entry under the tagged name. Its pixel data is not modelled.
- The physics dropper's ray casts are inputs. For each target the host supplies, per bottom corner, the corner's height and the height of the surface hit, if any. `_bottom_corners`, the ray origin offset and the maximum distance are folded into those hits.
- The BVH tree is modelled as the merged mesh it is built from. Evaluated meshes are an input (`meshOf`) that already gives world-space vertices, so `matrix_world @ vertex.co` is not modelled.
- The object transform is modelled as `location`. Lowering `matrix_world.translation` by the drop is lowering the location's height.
- The dropper's surface-normal alignment is not modelled: the quaternion rotation and `align_count`. The operator's status and move count do not depend on it.
- Quick Snap's ray cast and screen projections are inputs. The host supplies the hit object, the hit location and each point's pixel distance from the cursor, or none when the point does not project onto the region.
- `_pick_selected_vertex` is not modelled. The edit-mode shortcut is an input to `QuickSnap.BuildPickInfo`: the pick it returned, if any.
- `_any_selected_vertices`, `_object_in_selection` and `_iter_edit_objects` are not modelled. Their answers are inputs (`anySelectedVertices`, `inSelection`, `editObjects`).
- Moving edit-mode vertices is not modelled. `_world_to_local_vector` needs a matrix inverse, and the bmesh update is host work. The host reports only whether any vertex moved (`editMoved`).
- `QuickSnap.QuickSnapOperator.HandleClick` takes the pick as an input. `QuickSnap.PickPoint` gives what that pick is for the current stage's restriction.
- `ensure_mode` and `armature_paste_flipped` (animation_qol/utils/objects.py) are host operator calls (`bpy.ops` mode switches, pose copy and flipped paste) and are not modelled. Quick flip models which armatures they are applied to and how many.
- The scene cleanup's `invoke`/`draw` confirmation dialog is not modelled. Its preview lines are `SceneCleanup.FormatPreview` of the same targets.
- The cleanup's `mode_set` call and the `try`/`except` around each `bpy.data.objects.remove` are not modelled. Removal always succeeds here.
- utils/objects.py is not part of this model. The physics dropper's collision-collection walk uses `Objects.CollectionObjects`, the identical walk of animation_qol/utils/objects.py.
- MotionHold: inserted keys are appended to the curve's key list. The host's re-sorting of keys by time is not modelled. The pass visits the keys present when it starts, and each existence check sees every key inserted so far.
- Render: `apply_render_preset` looks presets up with `.get`. Only the six presets of the scene setting are modelled, so an unknown preset name cannot occur.

## Findings

| source | as written | input that shows it | evidently intended | confidence | as-written member | corrected member |
|---|---|---|---|---|---|---|
| operators/stagger_timing.py:169 | `_stagger_pose_bones` calls `anim_utils.iter_fcurves_for_pose_bone`, which utils/animation.py does not define, so it raises `AttributeError` | two selected pose bones and a non-zero step | each bone's unlocked curves shifted by its index times the step | not executed | StaggerTiming.StaggerPoseBonesAsWritten | StaggerTiming.StaggerPoseBones |
