/**
 * `operators/motion_hold.py`: duplicate the source keys of every target
 * curve `hold_frame_count` frames later, unless a key already sits there.
 *
 * The pass over a curve is specified by `HoldKeys`, one visit of one source
 * key at a time (`HoldStep`), over the key list as it is during the pass, so
 * that keys inserted earlier in the pass count as existing.
 */
module MotionHold {
  import opened Common
  import opened HostData
  import opened Animation

  /** The `hold_*` scene settings the operator reads. */
  datatype HoldSettings = HoldSettings(
    frameCount: int,
    onlySelectedCurves: bool,
    includeShapeKeys: bool,
    onlySelectedKeys: bool,
    interpolation: Interpolation,
    inheritHandles: bool)

  /** `max(1, hold_frame_count)`: the hold is at least one frame long. */
  function HoldOffset(frameCount: int): (offset: int)
    ensures offset >= 1
    ensures frameCount >= 1 ==> offset == frameCount
    ensures frameCount < 1 ==> offset == 1
  {
    MaxInt(1, frameCount)
  }

  /** Half-width of the window in which `_keyframe_exists` finds a key. */
  const Epsilon: real := 0.0001

  predicate Near(a: real, b: real)
  {
    -Epsilon <= a - b <= Epsilon
  }

  /** `_keyframe_exists`: some key lies within `Epsilon` of `frame`. */
  predicate KeyExists(keys: seq<Keyframe>, frame: real)
  {
    exists j :: 0 <= j < |keys| && Near(keys[j].x, frame)
  }

  /**
   * A key as `keyframe_points.insert(frame, value)` creates it, before the
   * operator sets its fields: the host's default interpolation and handle
   * types, both handles on the key itself.
   */
  function InsertedKey(frame: real, value: real): Keyframe
  {
    Keyframe(frame, value, frame, value, frame, value, false, Bezier, AutoClamped, AutoClamped)
  }

  /**
   * The key `_duplicate_keyframe` inserts for `source` at `frame`: selected,
   * with the configured interpolation. An inherited BEZIER source mirrors its
   * outgoing handle into the new key's incoming one; a CONSTANT hold gets
   * free handles 0.1 frame either side; anything else gets auto-clamped
   * handles.
   */
  function NewKey(source: Keyframe, frame: real, interpolation: Interpolation, inheritHandles: bool): (k: Keyframe)
    ensures k.x == frame && k.y == source.y && k.selected && k.interpolation == interpolation
    ensures inheritHandles && source.interpolation == Bezier ==>
      && k.x - k.hlX == source.hrX - source.x && k.y - k.hlY == source.hrY - source.y
      && k.hrX == k.x + 0.001 && k.hrY == k.y
      && k.hlType == source.hrType && k.hrType == AutoClamped
    ensures !(inheritHandles && source.interpolation == Bezier) && interpolation == Constant ==>
      && k.hlType == Free && k.hrType == Free
      && k.hlX == k.x - 0.1 && k.hrX == k.x + 0.1 && k.hlY == k.y && k.hrY == k.y
    ensures !(inheritHandles && source.interpolation == Bezier) && interpolation != Constant ==>
      k.hlType == AutoClamped && k.hrType == AutoClamped
  {
    var k := InsertedKey(frame, source.y).(interpolation := interpolation, selected := true);
    if inheritHandles && source.interpolation == Bezier then
      var dx := source.hrX - source.x;
      var dy := source.hrY - source.y;
      k.(hlX := k.x - dx, hlY := k.y - dy, hrX := k.x + 0.001, hrY := k.y,
         hlType := source.hrType, hrType := AutoClamped)
    else if interpolation == Constant then
      k.(hlType := Free, hrType := Free, hlX := k.x - 0.1, hlY := k.y, hrX := k.x + 0.1, hrY := k.y)
    else
      k.(hlType := AutoClamped, hrType := AutoClamped)
  }

  /** The key list after `_duplicate_keyframe(fcurve, source, frame_delta=offset, …)`. */
  function Duplicated(keys: seq<Keyframe>, source: Keyframe, offset: int, s: HoldSettings): seq<Keyframe>
  {
    var frame := source.x + offset as real;
    if KeyExists(keys, frame) then keys
    else keys + [NewKey(source, frame, s.interpolation, s.inheritHandles)]
  }

  /** A key of the curve once the pass has visited it: a source key of a CONSTANT hold turns CONSTANT. */
  function Held(k: Keyframe, s: HoldSettings): Keyframe
  {
    if Affected(k, s.onlySelectedKeys) && s.interpolation == Constant then k.(interpolation := Constant) else k
  }

  /** The pass visits the key at position `i`. */
  function HoldStep(cur: seq<Keyframe>, i: nat, s: HoldSettings): (r: seq<Keyframe>)
    requires i < |cur|
    ensures |cur| <= |r| <= |cur| + 1
  {
    if !Affected(cur[i], s.onlySelectedKeys) then cur
    else Duplicated(cur, cur[i], HoldOffset(s.frameCount), s)[i := Held(cur[i], s)]
  }

  /** The pass visits the keys at positions `i` to `n - 1`, in order. */
  function HoldFrom(cur: seq<Keyframe>, i: nat, n: nat, s: HoldSettings): seq<Keyframe>
    requires i <= n <= |cur|
    decreases n - i
  {
    if i == n then cur else HoldFrom(HoldStep(cur, i, s), i + 1, n, s)
  }

  /** The keys of a curve after the operator's pass over it. */
  function HoldKeys(keys: seq<Keyframe>, s: HoldSettings): seq<Keyframe>
  {
    HoldFrom(keys, 0, |keys|, s)
  }

  // ---------------------------------------------------------------------------
  // Properties of the pass
  // ---------------------------------------------------------------------------

  /** Whether a key exists depends only on the key times. */
  lemma SameTimes(a: seq<Keyframe>, b: seq<Keyframe>, f: real)
    requires |a| == |b| && forall j :: 0 <= j < |a| ==> a[j].x == b[j].x
    ensures KeyExists(a, f) <==> KeyExists(b, f)
  {
    if KeyExists(a, f) {
      var j :| 0 <= j < |a| && Near(a[j].x, f);
      assert Near(b[j].x, f);
    }
    if KeyExists(b, f) {
      var j :| 0 <= j < |b| && Near(b[j].x, f);
      assert Near(a[j].x, f);
    }
  }

  /** A visit changes at most the visited key and appends at most one key. */
  lemma HoldStepShape(cur: seq<Keyframe>, i: nat, s: HoldSettings)
    requires i < |cur|
    ensures var r := HoldStep(cur, i, s);
      && (forall j :: 0 <= j < |cur| ==> r[j] == if j == i then Held(cur[i], s) else cur[j])
      && (|r| == |cur| + 1 ==>
            && Affected(cur[i], s.onlySelectedKeys)
            && !KeyExists(cur, cur[i].x + HoldOffset(s.frameCount) as real)
            && r[|cur|] == NewKey(cur[i], cur[i].x + HoldOffset(s.frameCount) as real, s.interpolation, s.inheritHandles))
      && ((Affected(cur[i], s.onlySelectedKeys) && !KeyExists(cur, cur[i].x + HoldOffset(s.frameCount) as real))
            ==> |r| == |cur| + 1)
  {
  }

  /** A visit never removes a key time, so a key that existed still exists. */
  lemma HoldStepKeepsExisting(cur: seq<Keyframe>, i: nat, s: HoldSettings, f: real)
    requires i < |cur| && KeyExists(cur, f)
    ensures KeyExists(HoldStep(cur, i, s), f)
  {
    var r := HoldStep(cur, i, s);
    HoldStepShape(cur, i, s);
    var j :| 0 <= j < |cur| && Near(cur[j].x, f);
    assert r[j].x == cur[j].x;
  }

  /** A visited source key has a key at its hold frame afterwards. */
  lemma HoldStepCovers(cur: seq<Keyframe>, i: nat, s: HoldSettings)
    requires i < |cur| && Affected(cur[i], s.onlySelectedKeys)
    ensures KeyExists(HoldStep(cur, i, s), cur[i].x + HoldOffset(s.frameCount) as real)
  {
    var f := cur[i].x + HoldOffset(s.frameCount) as real;
    var r := HoldStep(cur, i, s);
    HoldStepShape(cur, i, s);
    if KeyExists(cur, f) {
      HoldStepKeepsExisting(cur, i, s, f);
    } else {
      assert Near(r[|cur|].x, f);
    }
  }

  /** The pass leaves every original key in place, marked CONSTANT when it was a source of a CONSTANT hold. */
  lemma {:induction false} HoldFromPrefix(cur: seq<Keyframe>, i: nat, n: nat, s: HoldSettings)
    requires i <= n <= |cur|
    ensures var r := HoldFrom(cur, i, n, s);
      && |cur| <= |r|
      && forall j :: 0 <= j < |cur| ==> r[j] == if i <= j < n then Held(cur[j], s) else cur[j]
    decreases n - i
  {
    if i < n {
      var c1 := HoldStep(cur, i, s);
      HoldStepShape(cur, i, s);
      HoldFromPrefix(c1, i + 1, n, s);
    }
  }

  /** A key time present before the rest of the pass is still present after it. */
  lemma {:induction false} HoldFromKeepsExisting(cur: seq<Keyframe>, i: nat, n: nat, s: HoldSettings, f: real)
    requires i <= n <= |cur| && KeyExists(cur, f)
    ensures KeyExists(HoldFrom(cur, i, n, s), f)
    decreases n - i
  {
    if i < n {
      HoldStepKeepsExisting(cur, i, s, f);
      HoldFromKeepsExisting(HoldStep(cur, i, s), i + 1, n, s, f);
    }
  }

  /** Every source key still to be visited has a key at its hold frame after the pass. */
  lemma {:induction false} HoldFromCovers(cur: seq<Keyframe>, i: nat, n: nat, s: HoldSettings, j: nat)
    requires i <= j < n <= |cur| && Affected(cur[j], s.onlySelectedKeys)
    ensures KeyExists(HoldFrom(cur, i, n, s), cur[j].x + HoldOffset(s.frameCount) as real)
    decreases n - i
  {
    var c1 := HoldStep(cur, i, s);
    HoldStepShape(cur, i, s);
    if j == i {
      HoldStepCovers(cur, i, s);
      HoldFromKeepsExisting(c1, i + 1, n, s, cur[j].x + HoldOffset(s.frameCount) as real);
    } else {
      assert c1[j] == cur[j];
      HoldFromCovers(c1, i + 1, n, s, j);
    }
  }

  /** From position `base` on, no key lies within `Epsilon` of a key before it. */
  predicate Fresh(keys: seq<Keyframe>, base: nat)
  {
    forall m :: base <= m < |keys| ==> !KeyExists(keys[..m], keys[m].x)
  }

  /** One visit keeps the keys from `base` on fresh. */
  lemma HoldStepFresh(cur: seq<Keyframe>, i: nat, s: HoldSettings, base: nat)
    requires i < base <= |cur| && Fresh(cur, base)
    ensures Fresh(HoldStep(cur, i, s), base)
  {
    var c1 := HoldStep(cur, i, s);
    HoldStepShape(cur, i, s);
    forall m | base <= m < |c1| ensures !KeyExists(c1[..m], c1[m].x) {
      if m < |cur| {
        SameTimes(c1[..m], cur[..m], cur[m].x);
      } else {
        SameTimes(c1[..m], cur, c1[m].x);
      }
    }
  }

  /** The pass keeps the inserted keys fresh: it never inserts next to an existing key. */
  lemma {:induction false} HoldFromFresh(cur: seq<Keyframe>, i: nat, n: nat, s: HoldSettings, base: nat)
    requires i <= n <= base <= |cur| && Fresh(cur, base)
    ensures Fresh(HoldFrom(cur, i, n, s), base)
    decreases n - i
  {
    if i < n {
      var c1 := HoldStep(cur, i, s);
      assert HoldFrom(cur, i, n, s) == HoldFrom(c1, i + 1, n, s);
      HoldStepFresh(cur, i, s, base);
      HoldFromFresh(c1, i + 1, n, s, base);
    } else {
      assert HoldFrom(cur, i, n, s) == cur;
    }
  }

  /** From position `base` on, every key is the duplicate of a source key of `orig`. */
  predicate FromSources(keys: seq<Keyframe>, base: nat, orig: seq<Keyframe>, s: HoldSettings)
  {
    forall m :: base <= m < |keys| ==> DuplicateOfSource(keys[m], orig, s)
  }

  /** `k` is the duplicate the pass makes of some source key of `orig`. */
  predicate DuplicateOfSource(k: Keyframe, orig: seq<Keyframe>, s: HoldSettings)
  {
    exists j :: 0 <= j < |orig| && Affected(orig[j], s.onlySelectedKeys)
      && k == NewKey(orig[j], orig[j].x + HoldOffset(s.frameCount) as real, s.interpolation, s.inheritHandles)
  }

  /** One visit keeps the keys still to be visited and appends only a duplicate of a source key. */
  lemma HoldStepSources(cur: seq<Keyframe>, i: nat, orig: seq<Keyframe>, s: HoldSettings)
    requires i < |orig| <= |cur|
    requires forall j :: i <= j < |orig| ==> cur[j] == orig[j]
    requires FromSources(cur, |orig|, orig, s)
    ensures var c1 := HoldStep(cur, i, s);
      && |orig| <= |c1|
      && (forall j :: i < j < |orig| ==> c1[j] == orig[j])
      && FromSources(c1, |orig|, orig, s)
  {
    var n := |orig|;
    var c1 := HoldStep(cur, i, s);
    HoldStepShape(cur, i, s);
    forall m | n <= m < |c1| ensures DuplicateOfSource(c1[m], orig, s) {
      if m == |cur| {
        assert Affected(orig[i], s.onlySelectedKeys) && c1[m] == NewKey(orig[i], orig[i].x + HoldOffset(s.frameCount) as real, s.interpolation, s.inheritHandles);
      } else {
        assert c1[m] == cur[m];
      }
    }
  }

  /** The pass only ever appends duplicates of the source keys it visits. */
  lemma {:induction false} HoldFromSources(cur: seq<Keyframe>, i: nat, orig: seq<Keyframe>, s: HoldSettings)
    requires i <= |orig| <= |cur|
    requires forall j :: i <= j < |orig| ==> cur[j] == orig[j]
    requires FromSources(cur, |orig|, orig, s)
    ensures FromSources(HoldFrom(cur, i, |orig|, s), |orig|, orig, s)
    decreases |orig| - i
  {
    if i < |orig| {
      var c1 := HoldStep(cur, i, s);
      HoldStepSources(cur, i, orig, s);
      HoldFromSources(c1, i + 1, orig, s);
      assert HoldFrom(cur, i, |orig|, s) == HoldFrom(c1, i + 1, |orig|, s);
    }
  }

  /**
   * What the pass over one curve does: every original key stays where it
   * was (a source key of a CONSTANT hold turns CONSTANT, even when its
   * duplicate was skipped); every source key has a key at its hold frame
   * afterwards; and every key the pass adds is a duplicate of a source key,
   * inserted where no key lay within `Epsilon`.
   */
  lemma HoldKeysSpec(keys: seq<Keyframe>, s: HoldSettings)
    ensures var r := HoldKeys(keys, s);
      && |keys| <= |r|
      && (forall j :: 0 <= j < |keys| ==> r[j] == Held(keys[j], s))
      && (forall j :: 0 <= j < |keys| && Affected(keys[j], s.onlySelectedKeys) ==>
            KeyExists(r, keys[j].x + HoldOffset(s.frameCount) as real))
      && Fresh(r, |keys|)
      && FromSources(r, |keys|, keys, s)
  {
    var r := HoldKeys(keys, s);
    HoldFromPrefix(keys, 0, |keys|, s);
    forall j | 0 <= j < |keys| && Affected(keys[j], s.onlySelectedKeys)
      ensures KeyExists(r, keys[j].x + HoldOffset(s.frameCount) as real)
    {
      HoldFromCovers(keys, 0, |keys|, s, j);
    }
    HoldFromFresh(keys, 0, |keys|, s, |keys|);
    HoldFromSources(keys, 0, keys, s);
  }

  /** Without a source key the pass changes nothing. */
  lemma {:induction false} HoldFromNoSources(cur: seq<Keyframe>, i: nat, n: nat, s: HoldSettings)
    requires i <= n <= |cur|
    requires forall j :: i <= j < n ==> !Affected(cur[j], s.onlySelectedKeys)
    ensures HoldFrom(cur, i, n, s) == cur
    decreases n - i
  {
    if i < n {
      HoldFromNoSources(cur, i + 1, n, s);
    }
  }

  /** Without `only_selected_keys` every key is a source, so every key gets a hold key. */
  lemma AllKeysHeld(keys: seq<Keyframe>, s: HoldSettings)
    requires !s.onlySelectedKeys
    ensures forall j :: 0 <= j < |keys| ==> KeyExists(HoldKeys(keys, s), keys[j].x + HoldOffset(s.frameCount) as real)
  {
    HoldKeysSpec(keys, s);
  }

  // ---------------------------------------------------------------------------
  // The operator
  // ---------------------------------------------------------------------------

  /** `_duplicate_keyframe`: insert the held copy of `source` unless a key already sits at its frame. */
  method DuplicateKeyframe(fcurve: FCurve, source: Keyframe, frameDelta: int, s: HoldSettings)
    modifies fcurve
    ensures fcurve.keys == Duplicated(old(fcurve.keys), source, frameDelta, s)
    ensures fcurve.modifiers == old(fcurve.modifiers) && fcurve.updates == old(fcurve.updates)
  {
    var newFrame := source.x + frameDelta as real;
    if KeyExists(fcurve.keys, newFrame) {
      return;
    }
    var newKey := InsertedKey(newFrame, source.y);
    newKey := newKey.(interpolation := s.interpolation, selected := true);
    if s.inheritHandles && source.interpolation == Bezier {
      var dx := source.hrX - source.x;
      var dy := source.hrY - source.y;
      newKey := newKey.(hlX := newKey.x - dx, hlY := newKey.y - dy, hrX := newKey.x + 0.001, hrY := newKey.y);
      newKey := newKey.(hlType := source.hrType, hrType := AutoClamped);
    } else if s.interpolation == Constant {
      newKey := newKey.(hlType := Free, hrType := Free);
      newKey := newKey.(hlX := newKey.x - 0.1, hlY := newKey.y, hrX := newKey.x + 0.1, hrY := newKey.y);
    } else {
      newKey := newKey.(hlType := AutoClamped, hrType := AutoClamped);
    }
    fcurve.keys := fcurve.keys + [newKey];
  }

  /** One turn of the inner loop of `execute`: visit the key at position `i`. */
  method VisitKey(fcurve: FCurve, i: nat, frameOffset: int, s: HoldSettings) returns (source: bool)
    requires i < |fcurve.keys| && frameOffset == HoldOffset(s.frameCount)
    modifies fcurve
    ensures fcurve.keys == HoldStep(old(fcurve.keys), i, s)
    ensures source == Affected(old(fcurve.keys)[i], s.onlySelectedKeys)
    ensures forall j :: 0 <= j < |old(fcurve.keys)| && j != i ==> fcurve.keys[j] == old(fcurve.keys)[j]
    ensures fcurve.modifiers == old(fcurve.modifiers) && fcurve.updates == old(fcurve.updates)
  {
    HoldStepShape(fcurve.keys, i, s);
    var keyframe := fcurve.keys[i];
    source := Affected(keyframe, s.onlySelectedKeys);
    if source {
      DuplicateKeyframe(fcurve, keyframe, frameOffset, s);
      if s.interpolation == Constant {
        fcurve.keys := fcurve.keys[i := keyframe.(interpolation := Constant)];
      }
    }
  }

  /**
   * The inner loop of `execute` over one curve: visit every source key
   * present when the pass starts. `changed` tells whether there was one.
   */
  method HoldCurve(fcurve: FCurve, s: HoldSettings) returns (changed: bool)
    modifies fcurve
    ensures fcurve.keys == HoldKeys(old(fcurve.keys), s)
    ensures changed == HasAffected(old(fcurve.keys), s.onlySelectedKeys)
    ensures fcurve.modifiers == old(fcurve.modifiers) && fcurve.updates == old(fcurve.updates)
  {
    ghost var keys0 := fcurve.keys;
    var n := |fcurve.keys|;
    var frameOffset := HoldOffset(s.frameCount);
    changed := false;
    var i := 0;
    while i < n
      invariant 0 <= i <= n <= |fcurve.keys| && n == |keys0|
      invariant HoldFrom(fcurve.keys, i, n, s) == HoldKeys(keys0, s)
      invariant forall j :: i <= j < n ==> fcurve.keys[j] == keys0[j]
      invariant changed == HasAffected(keys0[..i], s.onlySelectedKeys)
      invariant fcurve.modifiers == old(fcurve.modifiers) && fcurve.updates == old(fcurve.updates)
    {
      HasAffectedSnoc(keys0, i, s.onlySelectedKeys);
      var source := VisitKey(fcurve, i, frameOffset, s);
      changed := changed || source;
      i := i + 1;
    }
    assert keys0[..i] == keys0;
  }

  /** The pass keeps or drops no source key: a curve has one after it exactly when it had one before. */
  lemma HoldKeysHasAffected(keys: seq<Keyframe>, s: HoldSettings)
    ensures HasAffected(HoldKeys(keys, s), s.onlySelectedKeys) <==> HasAffected(keys, s.onlySelectedKeys)
  {
    var r := HoldKeys(keys, s);
    HoldKeysSpec(keys, s);
    if HasAffected(keys, s.onlySelectedKeys) {
      var j :| 0 <= j < |keys| && Affected(keys[j], s.onlySelectedKeys);
      assert r[j] == Held(keys[j], s);
    } else {
      HoldFromNoSources(keys, 0, |keys|, s);
    }
  }

  /**
   * The state of one candidate curve, given its keys, update count and
   * modifiers before the operator ran and whether the loop visited it.
   */
  ghost predicate HoldState(keys: seq<Keyframe>, updates: nat, mods: seq<Modifier>, visited: bool,
                            keys0: seq<Keyframe>, updates0: nat, mods0: seq<Modifier>, s: HoldSettings)
  {
    && keys == (if visited then HoldKeys(keys0, s) else keys0)
    && updates == updates0 + (if visited && HasAffected(keys0, s.onlySelectedKeys) then 1 else 0)
    && mods == mods0
  }

  /** `HoldState` of a curve's own fields. */
  ghost predicate CurveHeld(c: FCurve, visited: bool, keys0: seq<Keyframe>, updates0: nat, mods0: seq<Modifier>, s: HoldSettings)
    reads c
  {
    HoldState(c.keys, c.updates, c.modifiers, visited, keys0, updates0, mods0, s)
  }

  /** The candidates' state while the loop has been through `visited`. */
  ghost predicate HeldSoFar(cs: set<FCurve>, visited: seq<FCurve>, keys0: map<FCurve, seq<Keyframe>>,
                            updates0: map<FCurve, nat>, mods0: map<FCurve, seq<Modifier>>, s: HoldSettings)
    reads cs
  {
    && cs <= keys0.Keys && cs <= updates0.Keys && cs <= mods0.Keys
    && forall c :: c in cs ==>
      CurveHeld(c, c in visited, keys0[c], updates0[c], mods0[c], s)
  }

  /** One curve of the loop in `execute`: the hold pass, then `update()` when there was a source key. */
  method EditCurve(fcurve: FCurve, s: HoldSettings) returns (changed: bool)
    modifies fcurve
    ensures HoldState(fcurve.keys, fcurve.updates, fcurve.modifiers, true,
                      old(fcurve.keys), old(fcurve.updates), old(fcurve.modifiers), s)
    ensures changed == HasAffected(old(fcurve.keys), s.onlySelectedKeys)
  {
    changed := HoldCurve(fcurve, s);
    if changed {
      fcurve.updates := fcurve.updates + 1;
    }
  }

  /**
   * One step of the curve loop, stated over the whole candidate set: the
   * curves visited so far (`visited`) and now `fcurve` are held, the rest are
   * as they were (`keys0`, `updates0`, `mods0`).
   */
  method HoldNext(fcurve: FCurve, s: HoldSettings, ghost cs: set<FCurve>, ghost visited: seq<FCurve>,
                  ghost keys0: map<FCurve, seq<Keyframe>>, ghost updates0: map<FCurve, nat>,
                  ghost mods0: map<FCurve, seq<Modifier>>)
    returns (changed: bool)
    requires fcurve in cs && fcurve !in visited
    requires cs <= keys0.Keys && cs <= updates0.Keys && cs <= mods0.Keys
    requires HeldSoFar(cs, visited, keys0, updates0, mods0, s)
    modifies fcurve
    ensures HeldSoFar(cs, visited + [fcurve], keys0, updates0, mods0, s)
    ensures changed == HasAffected(keys0[fcurve], s.onlySelectedKeys)
  {
    assert CurveHeld(fcurve, false,
                     keys0[fcurve], updates0[fcurve], mods0[fcurve], s);
    changed := EditCurve(fcurve, s);
    forall c | c in cs
      ensures CurveHeld(c, c in visited + [fcurve], keys0[c], updates0[c], mods0[c], s)
    {
      if c != fcurve {
        assert c in visited + [fcurve] <==> c in visited;
      }
    }
  }

  /**
   * The curve loop of `execute`: every curve of `fcurves` gets the hold pass
   * and one `update()` when it had a source key; the other curves of `cs`
   * are untouched. `lists` are the curves' keys afterwards, which hold a
   * source key exactly when they did before.
   */
  method HoldCurves(fcurves: seq<FCurve>, s: HoldSettings, ghost cs: set<FCurve>)
    returns (edited: nat, ghost lists: seq<seq<Keyframe>>)
    requires Distinct(fcurves) && forall c :: c in fcurves ==> c in cs
    modifies cs
    ensures forall c :: c in cs ==>
      CurveHeld(c, c in fcurves, old(c.keys), old(c.updates), old(c.modifiers), s)
    ensures |lists| == |fcurves| && forall j :: 0 <= j < |fcurves| ==> lists[j] == fcurves[j].keys
    ensures edited == EditedCount(lists, s.onlySelectedKeys)
  {
    ghost var keys0 := map c | c in cs :: c.keys;
    ghost var updates0 := map c | c in cs :: c.updates;
    ghost var mods0 := map c | c in cs :: c.modifiers;
    assert HeldSoFar(cs, [], keys0, updates0, mods0, s);
    edited := HoldLoop(fcurves, s, cs, keys0, updates0, mods0);
    lists := CurveKeys(fcurves);
    HeldCount(fcurves, keys0, s, lists);
  }

  /** The `for` loop itself, against the candidates' state before it (`keys0`, `updates0`, `mods0`). */
  method HoldLoop(fcurves: seq<FCurve>, s: HoldSettings, ghost cs: set<FCurve>,
                  ghost keys0: map<FCurve, seq<Keyframe>>, ghost updates0: map<FCurve, nat>,
                  ghost mods0: map<FCurve, seq<Modifier>>)
    returns (edited: nat)
    requires Distinct(fcurves) && forall c :: c in fcurves ==> c in cs
    requires HeldSoFar(cs, [], keys0, updates0, mods0, s)
    modifies cs
    ensures HeldSoFar(cs, fcurves, keys0, updates0, mods0, s)
    ensures edited == CurvesWithTargets(fcurves, keys0, s.onlySelectedKeys)
  {
    edited := 0;
    ghost var visited: seq<FCurve> := [];
    var i := 0;
    while i < |fcurves|
      invariant 0 <= i <= |fcurves| && visited == fcurves[..i]
      invariant HeldSoFar(cs, visited, keys0, updates0, mods0, s)
      invariant edited == CurvesWithTargets(visited, keys0, s.onlySelectedKeys)
    {
      var fcurve := fcurves[i];
      assert fcurves[..i + 1] == visited + [fcurve];
      var changed := HoldNext(fcurve, s, cs, visited, keys0, updates0, mods0);
      CurvesWithTargetsSnoc(visited, fcurve, keys0, s.onlySelectedKeys);
      edited := edited + if changed then 1 else 0;
      visited := visited + [fcurve];
      i := i + 1;
    }
    assert visited == fcurves;
  }

  /** The pass keeps which curves have a source key, so the count over the held keys is the count before. */
  lemma {:induction false} HeldCount(fs: seq<FCurve>, keys0: map<FCurve, seq<Keyframe>>, s: HoldSettings,
                                     lists: seq<seq<Keyframe>>)
    requires |lists| == |fs|
    requires forall j :: 0 <= j < |fs| ==> fs[j] in keys0 && lists[j] == HoldKeys(keys0[fs[j]], s)
    ensures EditedCount(lists, s.onlySelectedKeys) == CurvesWithTargets(fs, keys0, s.onlySelectedKeys)
  {
    if fs != [] {
      var n := |fs| - 1;
      HeldCount(fs[..n], keys0, s, lists[..n]);
      HoldKeysHasAffected(keys0[fs[n]], s);
    }
  }

  /**
   * `ANIMATIONQOL_OT_insert_motion_hold.execute`. Every gathered curve gets
   * the hold pass and one `update()` when it had a source key; every other
   * candidate curve is untouched. `edited` counts the curves with a source
   * key, inserted or not; none (including no curves at all) cancels.
   */
  method Execute(ctx: AnimContext, s: HoldSettings)
    returns (status: Status, edited: nat, ghost lists: seq<seq<Keyframe>>)
    requires forall c :: c in CandidateCurves(ctx) ==> allocated(c)
    modifies CandidateCurves(ctx)
    ensures var fcurves := Gather(ctx, s.onlySelectedCurves, s.includeShapeKeys);
      forall c :: c in CandidateCurves(ctx) ==>
        CurveHeld(c, c in fcurves, old(c.keys), old(c.updates), old(c.modifiers), s)
    ensures var fcurves := Gather(ctx, s.onlySelectedCurves, s.includeShapeKeys);
      |lists| == |fcurves| && forall j :: 0 <= j < |fcurves| ==> lists[j] == fcurves[j].keys
    ensures edited == EditedCount(lists, s.onlySelectedKeys)
    ensures status == (if edited == 0 then Cancelled else Finished)
  {
    var fcurves := GatherTargetFcurves(ctx, s.onlySelectedCurves, s.includeShapeKeys);
    GatheredWithin(ctx, s.onlySelectedCurves, s.includeShapeKeys);
    if fcurves == [] {
      return Cancelled, 0, [];
    }
    edited, lists := HoldCurves(fcurves, s, CandidateCurves(ctx));
    status := if edited == 0 then Cancelled else Finished;
  }
}
