/**
 * The Offset Keyframes operator (full version): configuration resolution,
 * target gathering with its fallback, the three distribution modes
 * (uniform, selection-order cascade, name-order cascade) and the
 * name sort key with its lexicographic order.
 */
module KeyframeOffset {
  import opened Common
  import opened HostData
  import opened Animation

  datatype OffsetMode = Uniform | Order | Name

  // ---------------------------------------------------------------------------
  // _sort_key_by_name and the order `sorted` uses on it
  // ---------------------------------------------------------------------------

  /** Python's `<` on `str`: lexicographic by code point, a proper prefix first. */
  predicate StrLess(a: string, b: string)
    decreases |a|
  {
    if a == [] then b != []
    else b != [] && (a[0] < b[0] || (a[0] == b[0] && StrLess(a[1..], b[1..])))
  }

  lemma {:induction false} StrLessIrreflexive(a: string)
    ensures !StrLess(a, a)
    decreases |a|
  {
    if a != [] { StrLessIrreflexive(a[1..]); }
  }

  lemma {:induction false} StrLessTransitive(a: string, b: string, c: string)
    requires StrLess(a, b) && StrLess(b, c)
    ensures StrLess(a, c)
    decreases |a|
  {
    if a != [] && a[0] == b[0] && b[0] == c[0] {
      StrLessTransitive(a[1..], b[1..], c[1..]);
    }
  }

  lemma {:induction false} StrLessTotal(a: string, b: string)
    ensures a == b || StrLess(a, b) || StrLess(b, a)
    decreases |a|
  {
    if a != [] && b != [] && a[0] == b[0] {
      StrLessTotal(a[1..], b[1..]);
      if a[1..] == b[1..] {
        assert a == [a[0]] + a[1..] && b == [b[0]] + b[1..];
      }
    }
  }

  /** The tuple `(id_name, group_name, data_path, array_index)`. */
  datatype NameKey = NameKey(idName: string, groupName: string, dataPath: string, arrayIndex: int)

  /** Python's `<` on that tuple: compare field by field, the first difference decides. */
  predicate KeyLess(a: NameKey, b: NameKey)
  {
    || StrLess(a.idName, b.idName)
    || (a.idName == b.idName && StrLess(a.groupName, b.groupName))
    || (a.idName == b.idName && a.groupName == b.groupName && StrLess(a.dataPath, b.dataPath))
    || (a.idName == b.idName && a.groupName == b.groupName && a.dataPath == b.dataPath && a.arrayIndex < b.arrayIndex)
  }

  /** `KeyLess` is a strict total order. */
  lemma KeyLessOrder(a: NameKey, b: NameKey, c: NameKey)
    ensures !KeyLess(a, a)
    ensures KeyLess(a, b) && KeyLess(b, c) ==> KeyLess(a, c)
    ensures a == b || KeyLess(a, b) || KeyLess(b, a)
  {
    StrLessIrreflexive(a.idName);
    StrLessIrreflexive(a.groupName);
    StrLessIrreflexive(a.dataPath);
    StrLessTotal(a.idName, b.idName);
    StrLessTotal(a.groupName, b.groupName);
    StrLessTotal(a.dataPath, b.dataPath);
    if KeyLess(a, b) && KeyLess(b, c) {
      if StrLess(a.idName, b.idName) && StrLess(b.idName, c.idName) {
        StrLessTransitive(a.idName, b.idName, c.idName);
      }
      if StrLess(a.groupName, b.groupName) && StrLess(b.groupName, c.groupName) {
        StrLessTransitive(a.groupName, b.groupName, c.groupName);
      }
      if StrLess(a.dataPath, b.dataPath) && StrLess(b.dataPath, c.dataPath) {
        StrLessTransitive(a.dataPath, b.dataPath, c.dataPath);
      }
    }
  }

  lemma KeyLessDistinct(a: NameKey, b: NameKey)
    requires KeyLess(a, b)
    ensures a != b
  {
    KeyLessOrder(a, b, a);
  }

  /** `_sort_key_by_name`: a missing owner or group reads as the empty name. */
  function SortKeyByName(c: FCurve): NameKey
  {
    NameKey(
      if c.owner.Some? then c.owner.value.name else "",
      if c.groupName.Some? then c.groupName.value else "",
      c.dataPath,
      c.arrayIndex)
  }

  predicate SortedByName(s: seq<FCurve>)
  {
    forall i, j :: 0 <= i < j < |s| ==> !KeyLess(SortKeyByName(s[j]), SortKeyByName(s[i]))
  }

  /** The curves of `s` whose name key is `k`, in order. */
  function WithKey(s: seq<FCurve>, k: NameKey): seq<FCurve>
  {
    if s == [] then []
    else WithKey(s[..|s| - 1], k) + (if SortKeyByName(s[|s| - 1]) == k then [s[|s| - 1]] else [])
  }

  /** Insert `x` into sorted `t` after every curve whose key is not greater. */
  function InsertByName(t: seq<FCurve>, x: FCurve): (r: seq<FCurve>)
    ensures forall c :: c in r ==> c in t || c == x
  {
    if t == [] then [x]
    else if KeyLess(SortKeyByName(x), SortKeyByName(t[|t| - 1])) then InsertByName(t[..|t| - 1], x) + [t[|t| - 1]]
    else t + [x]
  }

  /** `sorted(fcurves, key=_sort_key_by_name)`, as an insertion sort. */
  function SortByName(s: seq<FCurve>): (r: seq<FCurve>)
    ensures forall c :: c in r ==> c in s
  {
    if s == [] then [] else InsertByName(SortByName(s[..|s| - 1]), s[|s| - 1])
  }

  /** Elements of an insertion come from the list or are the inserted curve. */
  lemma {:induction false} InsertByNameMultiset(t: seq<FCurve>, x: FCurve)
    ensures multiset(InsertByName(t, x)) == multiset(t) + multiset{x}
    decreases |t|
  {
    if t != [] {
      var n := |t| - 1;
      assert t == t[..n] + [t[n]];
      InsertByNameMultiset(t[..n], x);
    }
  }

  /** A curve no smaller than every curve of a sorted list extends it sorted. */
  lemma SortedSnoc(s: seq<FCurve>, x: FCurve)
    requires SortedByName(s)
    requires forall c :: c in s ==> !KeyLess(SortKeyByName(x), SortKeyByName(c))
    ensures SortedByName(s + [x])
  {
    var r := s + [x];
    forall i, j | 0 <= i < j < |r| ensures !KeyLess(SortKeyByName(r[j]), SortKeyByName(r[i])) {
      assert r[i] == s[i];
      if j == |s| {
        assert s[i] in s;
      } else {
        assert r[j] == s[j];
      }
    }
  }

  lemma {:induction false} InsertByNameSorted(t: seq<FCurve>, x: FCurve)
    requires SortedByName(t)
    ensures SortedByName(InsertByName(t, x))
    decreases |t|
  {
    if t != [] {
      var n := |t| - 1;
      var init, last := t[..n], t[n];
      var kx, kl := SortKeyByName(x), SortKeyByName(last);
      if KeyLess(kx, kl) {
        assert SortedByName(init);
        InsertByNameSorted(init, x);
        var r0 := InsertByName(init, x);
        forall c | c in r0 ensures !KeyLess(kl, SortKeyByName(c)) {
          if c == x {
            KeyLessOrder(kl, kx, kl);
          } else {
            var i :| 0 <= i < n && init[i] == c;
            assert t[i] == c;
          }
        }
        SortedSnoc(r0, last);
      } else {
        forall c | c in t ensures !KeyLess(kx, SortKeyByName(c)) {
          var i :| 0 <= i < |t| && t[i] == c;
          var ki := SortKeyByName(c);
          if i < n {
            KeyLessOrder(kx, ki, kl);
            KeyLessOrder(ki, kl, kx);
          }
        }
        SortedSnoc(t, x);
      }
    }
  }

  /** Appending a curve appends it to the curves with its key. */
  lemma WithKeySnoc(s: seq<FCurve>, x: FCurve, k: NameKey)
    ensures WithKey(s + [x], k) == WithKey(s, k) + (if SortKeyByName(x) == k then [x] else [])
  {
    assert (s + [x])[..|s|] == s;
  }

  /**
   * The insertion is stable: `x` lands after every curve with its own key and
   * the other curves keep their order (`t` need not be sorted).
   */
  lemma {:induction false} InsertByNameStable(t: seq<FCurve>, x: FCurve, k: NameKey)
    ensures WithKey(InsertByName(t, x), k) == WithKey(t, k) + (if SortKeyByName(x) == k then [x] else [])
    decreases |t|
  {
    if t == [] {
      WithKeySnoc([], x, k);
      assert [] + [x] == [x];
    } else {
      var n := |t| - 1;
      var init, last := t[..n], t[n];
      var kx, kl := SortKeyByName(x), SortKeyByName(last);
      assert t == init + [last];
      if KeyLess(kx, kl) {
        InsertByNameStable(init, x, k);
        KeyLessDistinct(kx, kl);
        InsertBeforeLastStable(init, last, x, InsertByName(init, x), k);
        assert InsertByName(t, x) == InsertByName(init, x) + [last];
      } else {
        WithKeySnoc(t, x, k);
      }
    }
  }

  /** Two parts of which one is empty can be appended in either order. */
  lemma SwapEmpty(a: seq<FCurve>, b: seq<FCurve>, c: seq<FCurve>)
    requires b == [] || c == []
    ensures a + b + c == a + c + b
  {
    if b == [] {
      assert a + b == a;
    } else {
      assert a + c == a;
    }
  }

  /** The step of `InsertByNameStable` where `x` goes before the last curve, whose key differs. */
  lemma InsertBeforeLastStable(init: seq<FCurve>, last: FCurve, x: FCurve, r0: seq<FCurve>, k: NameKey)
    requires SortKeyByName(x) != SortKeyByName(last)
    requires WithKey(r0, k) == WithKey(init, k) + (if SortKeyByName(x) == k then [x] else [])
    ensures WithKey(r0 + [last], k) == WithKey(init + [last], k) + (if SortKeyByName(x) == k then [x] else [])
  {
    WithKeySnoc(init, last, k);
    WithKeySnoc(r0, last, k);
    SwapEmpty(WithKey(init, k), if SortKeyByName(x) == k then [x] else [],
              if SortKeyByName(last) == k then [last] else []);
  }

  lemma {:induction false} InsertByNameDistinct(t: seq<FCurve>, x: FCurve)
    requires Distinct(t) && x !in t
    ensures Distinct(InsertByName(t, x))
    decreases |t|
  {
    if t != [] {
      var n := |t| - 1;
      var init, last := t[..n], t[n];
      if KeyLess(SortKeyByName(x), SortKeyByName(last)) {
        InsertByNameDistinct(init, x);
        InsertByNameMultiset(init, x);
        assert last !in multiset(InsertByName(init, x));
      }
    }
  }

  lemma {:induction false} SortByNameSorted(s: seq<FCurve>)
    ensures SortedByName(SortByName(s))
  {
    if s != [] {
      SortByNameSorted(s[..|s| - 1]);
      InsertByNameSorted(SortByName(s[..|s| - 1]), s[|s| - 1]);
    }
  }

  lemma {:induction false} SortByNamePermutation(s: seq<FCurve>)
    ensures multiset(SortByName(s)) == multiset(s)
  {
    if s != [] {
      var n := |s| - 1;
      var init := s[..n];
      SortByNamePermutation(init);
      assert SortByName(s) == InsertByName(SortByName(init), s[n]);
      InsertByNameMultiset(SortByName(init), s[n]);
      assert s == init + [s[n]];
      assert multiset(s) == multiset(init) + multiset{s[n]};
    }
  }

  lemma {:induction false} SortByNameStable(s: seq<FCurve>, k: NameKey)
    ensures WithKey(SortByName(s), k) == WithKey(s, k)
  {
    if s != [] {
      var n := |s| - 1;
      var init := s[..n];
      assert s == init + [s[n]];
      assert SortByName(s) == InsertByName(SortByName(init), s[n]);
      SortByNameStable(init, k);
      InsertByNameStable(SortByName(init), s[n], k);
      WithKeySnoc(init, s[n], k);
    }
  }

  lemma {:induction false} SortByNameDistinct(s: seq<FCurve>)
    requires Distinct(s)
    ensures Distinct(SortByName(s))
  {
    if s != [] {
      var n := |s| - 1;
      var t := SortByName(s[..n]);
      assert Distinct(s[..n]);
      SortByNameDistinct(s[..n]);
      SortByNamePermutation(s[..n]);
      assert s[n] !in s[..n];
      assert s[n] !in multiset(t);
      InsertByNameDistinct(t, s[n]);
    }
  }

  /**
   * What `sorted` promises: the result is ordered by name key, is a
   * permutation of the input, keeps curves with equal keys in input order
   * (stability), and keeps a duplicate-free list duplicate-free.
   */
  lemma SortByNameCorrect(s: seq<FCurve>)
    ensures SortedByName(SortByName(s))
    ensures multiset(SortByName(s)) == multiset(s)
    ensures forall k :: WithKey(SortByName(s), k) == WithKey(s, k)
    ensures Distinct(s) ==> Distinct(SortByName(s))
  {
    SortByNameSorted(s);
    SortByNamePermutation(s);
    forall k ensures WithKey(SortByName(s), k) == WithKey(s, k) {
      SortByNameStable(s, k);
    }
    if Distinct(s) { SortByNameDistinct(s); }
  }

  // ---------------------------------------------------------------------------
  // Configuration
  // ---------------------------------------------------------------------------

  /** The offset fields of the scene settings. */
  datatype OffsetSettings = OffsetSettings(
    keyframeFrameOffset: int, keyframeOnlySelectedKeys: bool, keyframeOffsetMode: OffsetMode)

  /** The operator's own properties. */
  datatype OffsetProps = OffsetProps(
    frameDelta: int, useSceneSettings: bool, affectAllKeys: bool, offsetMode: OffsetMode)

  datatype OffsetConfig = OffsetConfig(frameDelta: int, onlySelected: bool, mode: OffsetMode)

  /** Scene settings win when `use_scene_settings`; otherwise only selected keys move unless `affect_all_keys`. */
  function ResolveConfig(props: OffsetProps, settings: OffsetSettings): (cfg: OffsetConfig)
    ensures props.useSceneSettings ==>
      cfg == OffsetConfig(settings.keyframeFrameOffset, settings.keyframeOnlySelectedKeys, settings.keyframeOffsetMode)
    ensures !props.useSceneSettings ==>
      cfg.frameDelta == props.frameDelta && cfg.onlySelected == !props.affectAllKeys && cfg.mode == props.offsetMode
  {
    if props.useSceneSettings
    then OffsetConfig(settings.keyframeFrameOffset, settings.keyframeOnlySelectedKeys, settings.keyframeOffsetMode)
    else OffsetConfig(props.frameDelta, !props.affectAllKeys, props.offsetMode)
  }

  // ---------------------------------------------------------------------------
  // Targets and deltas
  // ---------------------------------------------------------------------------

  /** The gathered curves: selected curves first, then the fallback gather without that restriction. */
  function OffsetTargets(ctx: AnimContext): seq<FCurve>
  {
    var first := Gather(ctx, true, true);
    if first == [] then Gather(ctx, false, true) else first
  }

  /** The target list in the order deltas are assigned. */
  function OrderedTargets(ctx: AnimContext, mode: OffsetMode): seq<FCurve>
  {
    if mode == Name then SortByName(OffsetTargets(ctx)) else OffsetTargets(ctx)
  }

  /** The delta of the curve at position `index`: the same for all, or `frame_delta * index`. */
  function CurveDelta(frameDelta: int, mode: OffsetMode, index: nat): int
  {
    if mode == Uniform then frameDelta else frameDelta * index
  }

  /** One shift per target curve, in order. */
  function OffsetJobs(ordered: seq<FCurve>, frameDelta: int, mode: OffsetMode): (jobs: seq<Job>)
    ensures |jobs| == |ordered|
  {
    seq(|ordered|, i requires 0 <= i < |ordered| => Job(ordered[i], CurveDelta(frameDelta, mode, i)))
  }

  /**
   * The ordered targets are unlocked, distinct, drawn from the context, and
   * (in name mode) sorted by name key; they are the gathered curves
   * rearranged, and empty exactly when the first gather is empty.
   */
  lemma OrderedTargetsWellFormed(ctx: AnimContext, mode: OffsetMode)
    ensures Distinct(OrderedTargets(ctx, mode))
    ensures forall c :: c in OrderedTargets(ctx, mode) ==> c in CandidateCurves(ctx) && !c.lock
    ensures multiset(OrderedTargets(ctx, mode)) == multiset(OffsetTargets(ctx))
    ensures mode == Name ==> SortedByName(OrderedTargets(ctx, mode))
    ensures mode != Name ==> OrderedTargets(ctx, mode) == OffsetTargets(ctx)
    ensures OrderedTargets(ctx, mode) == [] <==> Gather(ctx, true, true) == []
  {
    GatherWellFormed(ctx, true, true);
    GatherWellFormed(ctx, false, true);
    GatherFallbackRedundant(ctx, true);
    var t := OffsetTargets(ctx);
    SortByNameCorrect(t);
    if mode == Name {
      forall c | c in OrderedTargets(ctx, mode) ensures c in CandidateCurves(ctx) && !c.lock {
        assert c in multiset(t);
      }
      if t != [] {
        assert t[0] in multiset(OrderedTargets(ctx, mode));
      }
    }
  }

  /**
   * With distinct targets, the curve at position `i` is shifted by exactly
   * `CurveDelta(…, i)` (so in the cascading modes the first curve never moves),
   * and a curve that is not a target does not move.
   */
  lemma OffsetJobsDeltas(ordered: seq<FCurve>, frameDelta: int, mode: OffsetMode)
    requires Distinct(ordered)
    ensures forall i :: 0 <= i < |ordered| ==>
      DeltaSum(OffsetJobs(ordered, frameDelta, mode), ordered[i]) == CurveDelta(frameDelta, mode, i)
    ensures forall c :: c !in ordered ==> DeltaSum(OffsetJobs(ordered, frameDelta, mode), c) == 0
    ensures mode != Uniform && |ordered| > 0 ==> DeltaSum(OffsetJobs(ordered, frameDelta, mode), ordered[0]) == 0
  {
    var jobs := OffsetJobs(ordered, frameDelta, mode);
    forall i | 0 <= i < |ordered|
      ensures DeltaSum(jobs, ordered[i]) == CurveDelta(frameDelta, mode, i)
    {
      DeltaSumDistinct(jobs, i);
    }
    forall c | c !in ordered ensures DeltaSum(jobs, c) == 0 {
      DeltaSumAbsent(jobs, c);
    }
  }

  // ---------------------------------------------------------------------------
  // execute
  // ---------------------------------------------------------------------------

  /** The whole delta `execute` applies to curve `c`: zero when the configured delta is zero. */
  function OffsetDelta(ctx: AnimContext, cfg: OffsetConfig, c: FCurve): int
  {
    if cfg.frameDelta == 0 then 0
    else DeltaSum(OffsetJobs(OrderedTargets(ctx, cfg.mode), cfg.frameDelta, cfg.mode), c)
  }

  /**
   * Which curve moves by how much: the curve at position `i` of the ordered
   * targets by `CurveDelta(…, i)` (so in the cascading modes the first target
   * never moves), every other curve not at all.
   */
  lemma OffsetDeltaSpec(ctx: AnimContext, cfg: OffsetConfig)
    ensures var ordered := OrderedTargets(ctx, cfg.mode);
      && (forall i :: 0 <= i < |ordered| ==>
            OffsetDelta(ctx, cfg, ordered[i]) == if cfg.frameDelta == 0 then 0 else CurveDelta(cfg.frameDelta, cfg.mode, i))
      && (forall c :: c !in ordered ==> OffsetDelta(ctx, cfg, c) == 0)
      && (cfg.mode != Uniform && ordered != [] ==> OffsetDelta(ctx, cfg, ordered[0]) == 0)
  {
    OrderedTargetsWellFormed(ctx, cfg.mode);
    OffsetJobsDeltas(OrderedTargets(ctx, cfg.mode), cfg.frameDelta, cfg.mode);
  }

  /** The gathering and ordering part of `execute`: gather, fall back, sort in name mode. */
  method OrderTargets(ctx: AnimContext, mode: OffsetMode) returns (ordered: seq<FCurve>)
    ensures ordered == OrderedTargets(ctx, mode)
    ensures ordered == [] <==> Gather(ctx, true, true) == []
    ensures Distinct(ordered) && forall c :: c in ordered ==> c in CandidateCurves(ctx) && !c.lock
  {
    var fcurves := GatherTargetFcurves(ctx, true, true);
    if fcurves == [] {
      fcurves := GatherTargetFcurves(ctx, false, true);
    }
    ordered := fcurves;
    if mode == Name {
      ordered := SortByName(fcurves);
    }
    OrderedTargetsWellFormed(ctx, mode);
  }

  /**
   * How many times a curve is updated when shifted once by `delta`: one
   * `update()` when the delta is non-zero and the curve has a key to touch,
   * none otherwise.
   */
  function Updated(keys: seq<Keyframe>, delta: int, onlySelected: bool): nat
  {
    if delta != 0 && AffectedCount(keys, onlySelected) > 0 then 1 else 0
  }

  /** The shifting loop of `execute` over the ordered targets. */
  method ShiftTargets(ctx: AnimContext, cfg: OffsetConfig, ordered: seq<FCurve>) returns (movedTotal: nat)
    requires ordered == OrderedTargets(ctx, cfg.mode) && cfg.frameDelta != 0
    requires forall c :: c in CandidateCurves(ctx) ==> allocated(c)
    modifies CandidateCurves(ctx)
    ensures forall c :: c in CandidateCurves(ctx) ==>
      && c.keys == ShiftedKeys(old(c.keys), OffsetDelta(ctx, cfg, c), cfg.onlySelected)
      && c.updates == old(c.updates) + Updated(old(c.keys), OffsetDelta(ctx, cfg, c), cfg.onlySelected)
      && c.modifiers == old(c.modifiers)
    ensures movedTotal == old(MovedSum(OffsetJobs(ordered, cfg.frameDelta, cfg.mode), cfg.onlySelected))
  {
    OrderedTargetsWellFormed(ctx, cfg.mode);
    var jobs := OffsetJobs(ordered, cfg.frameDelta, cfg.mode);
    assert forall i :: 0 <= i < |jobs| ==> jobs[i].curve == ordered[i];
    assert JobCurves(jobs) <= CandidateCurves(ctx);
    movedTotal := ShiftJobs(jobs, cfg.onlySelected);
    forall c | c in CandidateCurves(ctx)
      ensures c.keys == ShiftedKeys(old(c.keys), OffsetDelta(ctx, cfg, c), cfg.onlySelected)
      ensures c.updates == old(c.updates) + Updated(old(c.keys), OffsetDelta(ctx, cfg, c), cfg.onlySelected)
      ensures c.modifiers == old(c.modifiers)
    {
      assert OffsetDelta(ctx, cfg, c) == DeltaSum(jobs, c);
      if c in JobCurves(jobs) {
        assert ShiftedBy(c, jobs, cfg.onlySelected, old(c.keys), old(c.modifiers), old(c.updates));
        var i :| 0 <= i < |jobs| && jobs[i].curve == c;
        DeltaSumDistinct(jobs, i);
        ShiftCallsDistinct(jobs, i);
      } else {
        DeltaSumAbsent(jobs, c);
        ShiftInverse(old(c.keys), 0, cfg.onlySelected);
      }
    }
  }

  /**
   * `ANIMATIONQOL_OT_offset_keyframes.execute`. A zero delta or an empty
   * target list cancels and moves nothing. Otherwise every candidate curve is
   * shifted by its `OffsetDelta`, the total is the sum of the per-call counts,
   * a zero total cancels, and the reported direction is forward iff the delta
   * is positive. Modifiers never change.
   */
  method Execute(ctx: AnimContext, props: OffsetProps, settings: OffsetSettings)
    returns (status: Status, movedTotal: nat, forward: bool)
    requires forall c :: c in CandidateCurves(ctx) ==> allocated(c)
    modifies CandidateCurves(ctx)
    ensures var cfg := ResolveConfig(props, settings);
      forall c :: c in CandidateCurves(ctx) ==>
        && c.keys == ShiftedKeys(old(c.keys), OffsetDelta(ctx, cfg, c), cfg.onlySelected)
        && c.updates == old(c.updates) + Updated(old(c.keys), OffsetDelta(ctx, cfg, c), cfg.onlySelected)
        && c.modifiers == old(c.modifiers)
    ensures var cfg := ResolveConfig(props, settings);
      cfg.frameDelta == 0 || Gather(ctx, true, true) == [] ==> status == Cancelled && movedTotal == 0
    ensures var cfg := ResolveConfig(props, settings);
      cfg.frameDelta != 0 && Gather(ctx, true, true) != [] ==>
        && movedTotal == old(MovedSum(OffsetJobs(OrderedTargets(ctx, cfg.mode), cfg.frameDelta, cfg.mode), cfg.onlySelected))
        && status == (if movedTotal == 0 then Cancelled else Finished)
        && forward == (cfg.frameDelta > 0)
  {
    var cfg := ResolveConfig(props, settings);
    ShiftNothing(CandidateCurves(ctx), cfg.onlySelected);
    if cfg.frameDelta == 0 {
      return Cancelled, 0, false;
    }
    OrderedTargetsWellFormed(ctx, cfg.mode);
    ghost var expected := MovedSum(OffsetJobs(OrderedTargets(ctx, cfg.mode), cfg.frameDelta, cfg.mode), cfg.onlySelected);
    var ordered := OrderTargets(ctx, cfg.mode);
    if ordered == [] {
      OffsetDeltaSpec(ctx, cfg);
      return Cancelled, 0, false;
    }
    ghost var jobs := OffsetJobs(ordered, cfg.frameDelta, cfg.mode);
    assert forall i :: 0 <= i < |jobs| ==> jobs[i].curve == ordered[i];
    assert JobCurves(jobs) <= CandidateCurves(ctx);
    assert unchanged(CandidateCurves(ctx));
    assert MovedSum(jobs, cfg.onlySelected) == expected;
    movedTotal := ShiftTargets(ctx, cfg, ordered);
    status := if movedTotal == 0 then Cancelled else Finished;
    forward := cfg.frameDelta > 0;
  }
}
