/**
 * `operators/noise_randomizer.py` (and its identical copy under `YABQOLA/`):
 * give every NOISE modifier of the target curves a random phase, offset,
 * strength and scale, first creating one on curves that have none when
 * asked to. The random source is an input: `rand(k)` is the value of the
 * `k`-th `random.random()` draw after seeding, and `random.uniform(a, b)` is
 * `a + (b - a) * rand(k)`.
 */
module NoiseRandomizer {
  import opened Common
  import opened HostData
  import opened Animation

  /** The `noise_*` scene settings and the operator's own flag. */
  datatype NoiseSettings = NoiseSettings(
    phaseMin: real, phaseMax: real,
    offsetMin: real, offsetMax: real,
    strengthMin: real, strengthMax: real,
    scaleMin: real, scaleMax: real,
    createMissing: bool,
    onlySelectedCurves: bool)

  /** The four sampling ranges, each ordered by `sorted_range`. */
  datatype Ranges = Ranges(phase: (real, real), offset: (real, real), strength: (real, real), scale: (real, real))

  function RangesOf(s: NoiseSettings): (r: Ranges)
    ensures r.phase.0 <= r.phase.1 && r.offset.0 <= r.offset.1
    ensures r.strength.0 <= r.strength.1 && r.scale.0 <= r.scale.1
  {
    Ranges(SortedRange(s.phaseMin, s.phaseMax), SortedRange(s.offsetMin, s.offsetMax),
           SortedRange(s.strengthMin, s.strengthMax), SortedRange(s.scaleMin, s.scaleMax))
  }

  /** The smallest scale the operator ever writes. */
  const MinScale: real := 0.001

  /** `random.uniform(lo, hi)` for the draw `u`. */
  function Uniform(lo: real, hi: real, u: real): real
  {
    lo + (hi - lo) * u
  }

  /** A draw in `[0, 1]` lands in the range it scales to. */
  lemma UniformWithin(lo: real, hi: real, u: real)
    requires lo <= hi && 0.0 <= u <= 1.0
    ensures lo <= Uniform(lo, hi, u) <= hi
  {
    MulNonNegative(hi - lo, u);
    MulNonNegative(hi - lo, 1.0 - u);
    assert (hi - lo) * (1.0 - u) == (hi - lo) - (hi - lo) * u;
  }

  lemma MulNonNegative(a: real, b: real)
    requires 0.0 <= a && 0.0 <= b
    ensures 0.0 <= a * b
  {
  }

  /** The body of the modifier loop: four draws, starting at `d`, for phase, offset, strength and scale. */
  function Randomize(m: Modifier, r: Ranges, rand: nat -> real, d: nat): (m': Modifier)
    ensures m'.kind == m.kind && m'.scale >= MinScale
  {
    m.(phase := Uniform(r.phase.0, r.phase.1, rand(d)),
       offset := Uniform(r.offset.0, r.offset.1, rand(d + 1)),
       strength := Uniform(r.strength.0, r.strength.1, rand(d + 2)),
       scale := MaxReal(MinScale, Uniform(r.scale.0, r.scale.1, rand(d + 3))))
  }

  /** The number of NOISE modifiers in `mods`. */
  function NoiseCount(mods: seq<Modifier>): (n: nat)
    ensures n <= |mods|
  {
    if mods == [] then 0
    else NoiseCount(mods[..|mods| - 1]) + (if mods[|mods| - 1].kind == Noise then 1 else 0)
  }

  /** Some modifier of `mods` is a NOISE modifier exactly when the count is positive. */
  lemma {:induction false} NoiseCountZero(mods: seq<Modifier>)
    ensures NoiseCount(mods) == 0 <==> forall i :: 0 <= i < |mods| ==> mods[i].kind != Noise
  {
    if mods != [] {
      var n := |mods| - 1;
      NoiseCountZero(mods[..n]);
      assert forall i :: 0 <= i < n ==> mods[..n][i] == mods[i];
    }
  }

  /** Every NOISE modifier of `mods` randomised, the `j`-th one from draw `d + 4 * j`. */
  function Randomized(mods: seq<Modifier>, r: Ranges, rand: nat -> real, d: nat): (rs: seq<Modifier>)
    ensures |rs| == |mods|
  {
    seq(|mods|, i requires 0 <= i < |mods| => RandomizedAt(mods, r, rand, d, i))
  }

  /** The `i`-th modifier after randomising: NOISE ones take the draws after those of the NOISE modifiers before them. */
  function RandomizedAt(mods: seq<Modifier>, r: Ranges, rand: nat -> real, d: nat, i: nat): (m: Modifier)
    requires i < |mods|
    ensures m.kind == mods[i].kind
    ensures mods[i].kind != Noise ==> m == mods[i]
    ensures mods[i].kind == Noise ==> m.scale >= MinScale
  {
    if mods[i].kind == Noise then Randomize(mods[i], r, rand, d + 4 * NoiseCount(mods[..i])) else mods[i]
  }

  /**
   * Randomising keeps every modifier's kind, leaves the other modifiers as
   * they are, floors every NOISE scale at 0.001, and changes nothing when
   * there is no NOISE modifier.
   */
  lemma RandomizedShape(mods: seq<Modifier>, r: Ranges, rand: nat -> real, d: nat)
    ensures var rs := Randomized(mods, r, rand, d);
      && (forall i :: 0 <= i < |mods| ==> rs[i].kind == mods[i].kind)
      && (forall i :: 0 <= i < |mods| && mods[i].kind != Noise ==> rs[i] == mods[i])
      && (forall i :: 0 <= i < |mods| && mods[i].kind == Noise ==> rs[i].scale >= MinScale)
      && NoiseCount(rs) == NoiseCount(mods)
      && (NoiseCount(mods) == 0 ==> rs == mods)
  {
    var rs := Randomized(mods, r, rand, d);
    assert forall i :: 0 <= i < |mods| ==> rs[i] == RandomizedAt(mods, r, rand, d, i);
    NoiseCountSameKinds(mods, rs);
    if NoiseCount(mods) == 0 {
      NoiseCountZero(mods);
    }
  }

  /** Two lists of the same kinds have the same number of NOISE modifiers. */
  lemma {:induction false} NoiseCountSameKinds(a: seq<Modifier>, b: seq<Modifier>)
    requires |a| == |b| && forall i :: 0 <= i < |a| ==> a[i].kind == b[i].kind
    ensures NoiseCount(a) == NoiseCount(b)
  {
    if a != [] {
      var n := |a| - 1;
      NoiseCountSameKinds(a[..n], b[..n]);
    }
  }

  /**
   * The modifier `fcurve.modifiers.new(type="NOISE")` adds, with the initial
   * strength and scale the operator gives it. Phase and offset keep the
   * host's defaults, written here as zero; the randomisation that follows
   * overwrites all four values.
   */
  function NewNoise(r: Ranges): Modifier
  {
    Modifier(Noise, 0.0, 0.0, r.strength.1, MaxReal(MinScale, r.scale.0))
  }

  /** What the loop body does to one curve: its new modifiers, whether one was created, how many were randomised. */
  datatype Outcome = Outcome(mods: seq<Modifier>, created: bool, affected: nat)

  /** The specification of one pass of the curve loop, with draws starting at `d`. */
  function CurveResult(mods: seq<Modifier>, r: Ranges, createMissing: bool, rand: nat -> real, d: nat): Outcome
  {
    var created := NoiseCount(mods) == 0 && createMissing;
    var withNew := if created then mods + [NewNoise(r)] else mods;
    Outcome(Randomized(withNew, r, rand, d), created, NoiseCount(withNew))
  }

  /**
   * A curve gets one new modifier exactly when it had no NOISE modifier and
   * creation is on; the old modifiers keep their kinds and order, the
   * non-NOISE ones their values; `affected` is the number of NOISE modifiers
   * afterwards. A curve with no NOISE modifier and creation off is untouched.
   */
  lemma CurveResultShape(mods: seq<Modifier>, r: Ranges, createMissing: bool, rand: nat -> real, d: nat)
    ensures var o := CurveResult(mods, r, createMissing, rand, d);
      && (o.created <==> NoiseCount(mods) == 0 && createMissing)
      && |o.mods| == |mods| + (if o.created then 1 else 0)
      && (forall i :: 0 <= i < |mods| ==> o.mods[i].kind == mods[i].kind)
      && (forall i :: 0 <= i < |mods| && mods[i].kind != Noise ==> o.mods[i] == mods[i])
      && (o.created ==> o.mods[|mods|].kind == Noise)
      && o.affected == NoiseCount(o.mods) == NoiseCount(mods) + (if o.created then 1 else 0)
      && (NoiseCount(mods) == 0 && !createMissing ==> o.mods == mods && o.affected == 0)
      && (forall i :: 0 <= i < |o.mods| && o.mods[i].kind == Noise ==> o.mods[i].scale >= MinScale)
  {
    var created := NoiseCount(mods) == 0 && createMissing;
    var withNew := if created then mods + [NewNoise(r)] else mods;
    if created {
      assert withNew[..|mods|] == mods;
      assert NoiseCount(withNew) == NoiseCount(mods) + 1;
    }
    assert forall i :: 0 <= i < |mods| ==> withNew[i] == mods[i];
    RandomizedShape(withNew, r, rand, d);
  }

  /**
   * With draws in `[0, 1]`, every NOISE modifier a pass leaves behind has its
   * phase, offset, strength and scale within the sorted ranges (the scale
   * floored at 0.001).
   */
  lemma CurveResultWithin(mods: seq<Modifier>, s: NoiseSettings, rand: nat -> real, d: nat)
    requires forall k :: 0.0 <= rand(k) <= 1.0
    ensures var r := RangesOf(s); var o := CurveResult(mods, r, s.createMissing, rand, d);
      forall i :: 0 <= i < |o.mods| && o.mods[i].kind == Noise ==>
        && r.phase.0 <= o.mods[i].phase <= r.phase.1
        && r.offset.0 <= o.mods[i].offset <= r.offset.1
        && r.strength.0 <= o.mods[i].strength <= r.strength.1
        && MaxReal(MinScale, r.scale.0) <= o.mods[i].scale <= MaxReal(MinScale, r.scale.1)
  {
    var r := RangesOf(s);
    var o := CurveResult(mods, r, s.createMissing, rand, d);
    var withNew := if o.created then mods + [NewNoise(r)] else mods;
    forall i | 0 <= i < |o.mods| && o.mods[i].kind == Noise
      ensures && r.phase.0 <= o.mods[i].phase <= r.phase.1
              && r.offset.0 <= o.mods[i].offset <= r.offset.1
              && r.strength.0 <= o.mods[i].strength <= r.strength.1
              && MaxReal(MinScale, r.scale.0) <= o.mods[i].scale <= MaxReal(MinScale, r.scale.1)
    {
      var e := d + 4 * NoiseCount(withNew[..i]);
      assert o.mods[i] == RandomizedAt(withNew, r, rand, d, i) == Randomize(withNew[i], r, rand, e);
      UniformWithin(r.phase.0, r.phase.1, rand(e));
      UniformWithin(r.offset.0, r.offset.1, rand(e + 1));
      UniformWithin(r.strength.0, r.strength.1, rand(e + 2));
      UniformWithin(r.scale.0, r.scale.1, rand(e + 3));
    }
  }

  // ---------------------------------------------------------------------------
  // The loops of `execute`
  // ---------------------------------------------------------------------------

  /** The modifiers while the inner loop has been through the first `i`: those randomised, the rest as they were. */
  ghost predicate RandomizedUpTo(cur: seq<Modifier>, mods0: seq<Modifier>, i: nat, r: Ranges, rand: nat -> real, d: nat)
  {
    && i <= |cur| == |mods0|
    && forall j :: 0 <= j < |mods0| ==> cur[j] == if j < i then RandomizedAt(mods0, r, rand, d, j) else mods0[j]
  }

  /** Randomising modifier `i` carries `RandomizedUpTo` from `i` to `i + 1`. */
  lemma RandomizedUpToStep(cur: seq<Modifier>, mods0: seq<Modifier>, i: nat, r: Ranges, rand: nat -> real, d: nat)
    requires RandomizedUpTo(cur, mods0, i, r, rand, d) && i < |cur|
    ensures cur[i] == mods0[i]
    ensures RandomizedUpTo(cur[i := RandomizedAt(mods0, r, rand, d, i)], mods0, i + 1, r, rand, d)
    ensures mods0[i].kind != Noise ==> RandomizedUpTo(cur, mods0, i + 1, r, rand, d)
    ensures NoiseCount(mods0[..i + 1]) == NoiseCount(mods0[..i]) + (if mods0[i].kind == Noise then 1 else 0)
  {
    assert mods0[..i + 1][..i] == mods0[..i];
  }

  /** The inner `for modifier in modifiers` loop: every NOISE modifier of `fcurve` takes four draws from `draw0` on. */
  method RandomizeModifiers(fcurve: FCurve, r: Ranges, rand: nat -> real, draw0: nat) returns (affected: nat, draw: nat)
    modifies fcurve
    ensures fcurve.modifiers == Randomized(old(fcurve.modifiers), r, rand, draw0)
    ensures affected == NoiseCount(old(fcurve.modifiers)) && draw == draw0 + 4 * affected
    ensures fcurve.keys == old(fcurve.keys) && fcurve.updates == old(fcurve.updates)
  {
    ghost var mods0 := fcurve.modifiers;
    affected := 0;
    draw := draw0;
    var i := 0;
    while i < |fcurve.modifiers|
      invariant RandomizedUpTo(fcurve.modifiers, mods0, i, r, rand, draw0)
      invariant affected == NoiseCount(mods0[..i]) && draw == draw0 + 4 * affected
      invariant fcurve.keys == old(fcurve.keys) && fcurve.updates == old(fcurve.updates)
    {
      RandomizedUpToStep(fcurve.modifiers, mods0, i, r, rand, draw0);
      var m := fcurve.modifiers[i];
      if m.kind == Noise {
        m := m.(phase := Uniform(r.phase.0, r.phase.1, rand(draw)));
        m := m.(offset := Uniform(r.offset.0, r.offset.1, rand(draw + 1)));
        m := m.(strength := Uniform(r.strength.0, r.strength.1, rand(draw + 2)));
        m := m.(scale := MaxReal(MinScale, Uniform(r.scale.0, r.scale.1, rand(draw + 3))));
        assert m == RandomizedAt(mods0, r, rand, draw0, i);
        fcurve.modifiers := fcurve.modifiers[i := m];
        draw := draw + 4;
        affected := affected + 1;
      }
      i := i + 1;
    }
    assert mods0[..i] == mods0;
  }

  /** The body of the curve loop for one curve: create a NOISE modifier if asked to, then randomise. */
  method RandomizeCurve(fcurve: FCurve, r: Ranges, createMissing: bool, rand: nat -> real, draw0: nat)
    returns (created: bool, affected: nat, draw: nat)
    modifies fcurve
    ensures var o := CurveResult(old(fcurve.modifiers), r, createMissing, rand, draw0);
      fcurve.modifiers == o.mods && created == o.created && affected == o.affected
    ensures draw == draw0 + 4 * affected
    ensures fcurve.keys == old(fcurve.keys) && fcurve.updates == old(fcurve.updates)
  {
    created := false;
    if NoiseCount(fcurve.modifiers) == 0 && createMissing {
      fcurve.modifiers := fcurve.modifiers + [NewNoise(r)];
      created := true;
    }
    if NoiseCount(fcurve.modifiers) == 0 {
      RandomizedShape(fcurve.modifiers, r, rand, draw0);
      return created, 0, draw0;
    }
    affected, draw := RandomizeModifiers(fcurve, r, rand, draw0);
  }

  /** `affected` after the outcomes `outs`. */
  function TotalAffected(outs: seq<Outcome>): nat
  {
    if outs == [] then 0 else TotalAffected(outs[..|outs| - 1]) + outs[|outs| - 1].affected
  }

  /** `created` after the outcomes `outs`. */
  function TotalCreated(outs: seq<Outcome>): nat
  {
    if outs == [] then 0 else TotalCreated(outs[..|outs| - 1]) + (if outs[|outs| - 1].created then 1 else 0)
  }

  /**
   * The outcomes of the curve loop over curves with modifiers `lists`: each
   * curve draws its random values after all those of the curves before it.
   */
  function Pass(lists: seq<seq<Modifier>>, r: Ranges, createMissing: bool, rand: nat -> real): (outs: seq<Outcome>)
    ensures |outs| == |lists|
  {
    if lists == [] then []
    else
      var prev := Pass(lists[..|lists| - 1], r, createMissing, rand);
      prev + [CurveResult(lists[|lists| - 1], r, createMissing, rand, 4 * TotalAffected(prev))]
  }

  /** One more curve appends its outcome, drawn after the outcomes before it. */
  lemma PassSnoc(lists: seq<seq<Modifier>>, m: seq<Modifier>, r: Ranges, createMissing: bool, rand: nat -> real)
    ensures var prev := Pass(lists, r, createMissing, rand);
      Pass(lists + [m], r, createMissing, rand)
        == prev + [CurveResult(m, r, createMissing, rand, 4 * TotalAffected(prev))]
  {
    assert (lists + [m])[..|lists|] == lists;
  }

  /** The loop's bookkeeping for curve `i`, whose outcome `o` is drawn after the outcomes `done` before it. */
  lemma PassStep(lists: seq<seq<Modifier>>, i: nat, r: Ranges, createMissing: bool, rand: nat -> real,
                 done: seq<Outcome>, o: Outcome)
    requires i < |lists| && done == Pass(lists[..i], r, createMissing, rand)
    requires o == CurveResult(lists[i], r, createMissing, rand, 4 * TotalAffected(done))
    ensures done + [o] == Pass(lists[..i + 1], r, createMissing, rand)
    ensures TotalAffected(done + [o]) == TotalAffected(done) + o.affected
    ensures TotalCreated(done + [o]) == TotalCreated(done) + (if o.created then 1 else 0)
  {
    TakeSnoc(lists, i);
    PassSnoc(lists[..i], lists[i], r, createMissing, rand);
    TotalsSnoc(done, o);
  }

  lemma TotalsSnoc(outs: seq<Outcome>, o: Outcome)
    ensures TotalAffected(outs + [o]) == TotalAffected(outs) + o.affected
    ensures TotalCreated(outs + [o]) == TotalCreated(outs) + (if o.created then 1 else 0)
  {
    assert (outs + [o])[..|outs|] == outs;
  }

  /**
   * Curve `j` of the loop takes its random values after all those of the
   * curves before it: its outcome is one pass with draws starting at four
   * times the number of modifiers randomised so far.
   */
  lemma {:induction false} PassDraws(lists: seq<seq<Modifier>>, r: Ranges, createMissing: bool, rand: nat -> real)
    ensures var outs := Pass(lists, r, createMissing, rand);
      forall j :: 0 <= j < |lists| ==>
        outs[j] == CurveResult(lists[j], r, createMissing, rand, 4 * TotalAffected(outs[..j]))
  {
    if lists != [] {
      var n := |lists| - 1;
      var outs := Pass(lists, r, createMissing, rand);
      var prev := Pass(lists[..n], r, createMissing, rand);
      PassLast(lists, r, createMissing, rand);
      PassDraws(lists[..n], r, createMissing, rand);
      forall j | 0 <= j < n
        ensures outs[j] == CurveResult(lists[j], r, createMissing, rand, 4 * TotalAffected(outs[..j]))
      {
        PrefixAgree(outs, prev, j);
        PrefixAgree(lists, lists[..n], j);
      }
    }
  }

  lemma PrefixAgree<T>(a: seq<T>, b: seq<T>, j: nat)
    requires j < |b| <= |a| && a[..|b|] == b
    ensures a[j] == b[j] && a[..j] == b[..j]
  {
    assert a[j] == a[..|b|][j];
  }

  /** The last outcome of a pass, drawn after the outcomes of the curves before it. */
  lemma PassLast(lists: seq<seq<Modifier>>, r: Ranges, createMissing: bool, rand: nat -> real)
    requires lists != []
    ensures var n := |lists| - 1; var outs := Pass(lists, r, createMissing, rand);
      && outs[..n] == Pass(lists[..n], r, createMissing, rand)
      && outs[n] == CurveResult(lists[n], r, createMissing, rand, 4 * TotalAffected(outs[..n]))
  {
    var n := |lists| - 1;
    var prev := Pass(lists[..n], r, createMissing, rand);
    assert Pass(lists, r, createMissing, rand)[..n] == prev;
  }

  /** A curve on which the loop body does nothing: no NOISE modifier, and none to be created. */
  predicate Quiet(mods: seq<Modifier>, createMissing: bool)
  {
    NoiseCount(mods) == 0 && !createMissing
  }

  /** The counts of one pass: a creation happens exactly on a curve without NOISE, and is randomised too. */
  lemma CurveResultCounts(mods: seq<Modifier>, r: Ranges, createMissing: bool, rand: nat -> real, d: nat)
    ensures var o := CurveResult(mods, r, createMissing, rand, d);
      && (o.created ==> o.affected > 0)
      && (o.affected == 0 <==> Quiet(mods, createMissing))
  {
    CurveResultShape(mods, r, createMissing, rand, d);
  }

  /**
   * Nothing is randomised exactly when no curve has a NOISE modifier and
   * creation is off; every created modifier is randomised, so a pass that
   * created one is never cancelled.
   */
  lemma {:induction false} PassTotals(lists: seq<seq<Modifier>>, r: Ranges, createMissing: bool, rand: nat -> real)
    ensures var outs := Pass(lists, r, createMissing, rand);
      && (TotalAffected(outs) == 0 <==> forall j :: 0 <= j < |lists| ==> Quiet(lists[j], createMissing))
      && TotalCreated(outs) <= TotalAffected(outs)
  {
    if lists != [] {
      var n := |lists| - 1;
      var prev := Pass(lists[..n], r, createMissing, rand);
      var o := CurveResult(lists[n], r, createMissing, rand, 4 * TotalAffected(prev));
      assert Pass(lists, r, createMissing, rand) == prev + [o];
      PassTotals(lists[..n], r, createMissing, rand);
      CurveResultCounts(lists[n], r, createMissing, rand, 4 * TotalAffected(prev));
      QuietSplit(lists, createMissing);
      TotalsStep(prev, o, forall j :: 0 <= j < n ==> Quiet(lists[..n][j], createMissing), Quiet(lists[n], createMissing));
    }
  }

  /** The induction step of `PassTotals`, over an abstract outcome. */
  lemma TotalsStep(prev: seq<Outcome>, o: Outcome, quietBefore: bool, quietLast: bool)
    requires (TotalAffected(prev) == 0 <==> quietBefore) && TotalCreated(prev) <= TotalAffected(prev)
    requires (o.created ==> o.affected > 0) && (o.affected == 0 <==> quietLast)
    ensures TotalAffected(prev + [o]) == 0 <==> quietBefore && quietLast
    ensures TotalCreated(prev + [o]) <= TotalAffected(prev + [o])
  {
    TotalsSnoc(prev, o);
  }

  lemma QuietSplit(lists: seq<seq<Modifier>>, createMissing: bool)
    requires lists != []
    ensures var n := |lists| - 1;
      (forall j :: 0 <= j < |lists| ==> Quiet(lists[j], createMissing))
        <==> (forall j :: 0 <= j < n ==> Quiet(lists[..n][j], createMissing)) && Quiet(lists[n], createMissing)
  {
    var n := |lists| - 1;
    assert forall j :: 0 <= j < n ==> lists[..n][j] == lists[j];
  }

  /** The modifiers of a curve after the outcomes `outs` of the visited curves `fs`; `m0` if it was not visited. */
  ghost function ResultFor(fs: seq<FCurve>, outs: seq<Outcome>, c: FCurve, m0: seq<Modifier>): seq<Modifier>
    requires |fs| == |outs|
  {
    if fs == [] then m0
    else if fs[|fs| - 1] == c then outs[|outs| - 1].mods
    else ResultFor(fs[..|fs| - 1], outs[..|outs| - 1], c, m0)
  }

  /** A curve the loop never visited holds its old modifiers. */
  lemma {:induction false} ResultForAbsent(fs: seq<FCurve>, outs: seq<Outcome>, c: FCurve, m0: seq<Modifier>)
    requires |fs| == |outs| && c !in fs
    ensures ResultFor(fs, outs, c, m0) == m0
  {
    if fs != [] {
      var n := |fs| - 1;
      assert c !in fs[..n];
      ResultForAbsent(fs[..n], outs[..n], c, m0);
    }
  }

  /** A visited curve holds the modifiers of its own outcome. */
  lemma {:induction false} ResultForAt(fs: seq<FCurve>, outs: seq<Outcome>, j: nat, m0: seq<Modifier>)
    requires |fs| == |outs| && Distinct(fs) && j < |fs|
    ensures ResultFor(fs, outs, fs[j], m0) == outs[j].mods
  {
    var n := |fs| - 1;
    if j < n {
      assert fs[..n][j] == fs[j] && outs[..n][j] == outs[j];
      ResultForAt(fs[..n], outs[..n], j, m0);
    }
  }

  /** A curve's modifiers, keys and update count. */
  ghost predicate CurveNoised(c: FCurve, mods: seq<Modifier>, keys0: seq<Keyframe>, updates0: nat)
    reads c
  {
    c.modifiers == mods && c.keys == keys0 && c.updates == updates0
  }

  /** The candidates' state once the loop has visited `visited` with outcomes `done`. */
  ghost predicate NoisedSoFar(cs: set<FCurve>, visited: seq<FCurve>, done: seq<Outcome>,
                              keys0: map<FCurve, seq<Keyframe>>, updates0: map<FCurve, nat>,
                              mods0: map<FCurve, seq<Modifier>>)
    reads cs
  {
    && cs <= keys0.Keys && cs <= updates0.Keys && cs <= mods0.Keys
    && |visited| == |done|
    && forall c :: c in cs ==> CurveNoised(c, ResultFor(visited, done, c, mods0[c]), keys0[c], updates0[c])
  }

  /** One step of the curve loop, stated over the whole candidate set. */
  method NoiseNext(fcurve: FCurve, r: Ranges, createMissing: bool, rand: nat -> real, draw0: nat,
                   ghost cs: set<FCurve>, ghost visited: seq<FCurve>, ghost done: seq<Outcome>,
                   ghost keys0: map<FCurve, seq<Keyframe>>, ghost updates0: map<FCurve, nat>,
                   ghost mods0: map<FCurve, seq<Modifier>>)
    returns (created: bool, affected: nat, draw: nat)
    requires fcurve in cs && fcurve !in visited
    requires NoisedSoFar(cs, visited, done, keys0, updates0, mods0)
    modifies fcurve
    ensures var o := CurveResult(mods0[fcurve], r, createMissing, rand, draw0);
      && created == o.created && affected == o.affected && draw == draw0 + 4 * affected
      && NoisedSoFar(cs, visited + [fcurve], done + [o], keys0, updates0, mods0)
  {
    ResultForAbsent(visited, done, fcurve, mods0[fcurve]);
    assert CurveNoised(fcurve, mods0[fcurve], keys0[fcurve], updates0[fcurve]);
    ghost var o := CurveResult(mods0[fcurve], r, createMissing, rand, draw0);
    created, affected, draw := RandomizeCurve(fcurve, r, createMissing, rand, draw0);
    forall c | c in cs
      ensures CurveNoised(c, ResultFor(visited + [fcurve], done + [o], c, mods0[c]), keys0[c], updates0[c])
    {
      assert (visited + [fcurve])[..|visited|] == visited && (done + [o])[..|done|] == done;
    }
  }

  /** The modifiers of the curves `fs` before the loop. */
  ghost function ListsOf(fs: seq<FCurve>, mods0: map<FCurve, seq<Modifier>>): (lists: seq<seq<Modifier>>)
    requires forall c :: c in fs ==> c in mods0
    ensures |lists| == |fs| && forall j :: 0 <= j < |fs| ==> lists[j] == mods0[fs[j]]
  {
    seq(|fs|, j requires 0 <= j < |fs| => mods0[fs[j]])
  }

  /** The `for fcurve in fcurves` loop, against the candidates' state before it. */
  method NoiseLoop(fcurves: seq<FCurve>, r: Ranges, createMissing: bool, rand: nat -> real,
                   ghost cs: set<FCurve>, ghost keys0: map<FCurve, seq<Keyframe>>,
                   ghost updates0: map<FCurve, nat>, ghost mods0: map<FCurve, seq<Modifier>>)
    returns (created: nat, affected: nat)
    requires Distinct(fcurves) && forall c :: c in fcurves ==> c in cs
    requires NoisedSoFar(cs, [], [], keys0, updates0, mods0)
    modifies cs
    ensures var plan := Pass(ListsOf(fcurves, mods0), r, createMissing, rand);
      && NoisedSoFar(cs, fcurves, plan, keys0, updates0, mods0)
      && created == TotalCreated(plan) && affected == TotalAffected(plan)
  {
    ghost var lists := ListsOf(fcurves, mods0);
    created := 0;
    affected := 0;
    var draw := 0;
    ghost var visited: seq<FCurve> := [];
    ghost var done: seq<Outcome> := [];
    var i := 0;
    while i < |fcurves|
      invariant 0 <= i <= |fcurves| && visited == fcurves[..i]
      invariant done == Pass(lists[..i], r, createMissing, rand)
      invariant NoisedSoFar(cs, visited, done, keys0, updates0, mods0)
      invariant created == TotalCreated(done) && affected == TotalAffected(done) && draw == 4 * affected
    {
      created, affected, draw, visited, done :=
        NoiseStep(fcurves, i, r, createMissing, rand, created, affected, draw, cs, lists, visited, done,
                  keys0, updates0, mods0);
      i := i + 1;
    }
    assert visited == fcurves && lists[..i] == lists;
  }

  /** The body of the curve loop for curve `i`, with the loop's bookkeeping carried from `i` to `i + 1`. */
  method NoiseStep(fcurves: seq<FCurve>, i: nat, r: Ranges, createMissing: bool, rand: nat -> real,
                   created0: nat, affected0: nat, draw0: nat,
                   ghost cs: set<FCurve>, ghost lists: seq<seq<Modifier>>,
                   ghost visited0: seq<FCurve>, ghost done0: seq<Outcome>,
                   ghost keys0: map<FCurve, seq<Keyframe>>, ghost updates0: map<FCurve, nat>,
                   ghost mods0: map<FCurve, seq<Modifier>>)
    returns (created: nat, affected: nat, draw: nat, ghost visited: seq<FCurve>, ghost done: seq<Outcome>)
    requires Distinct(fcurves) && i < |fcurves| && fcurves[i] in cs
    requires |lists| == |fcurves| && fcurves[i] in mods0 && lists[i] == mods0[fcurves[i]]
    requires visited0 == fcurves[..i] && done0 == Pass(lists[..i], r, createMissing, rand)
    requires NoisedSoFar(cs, visited0, done0, keys0, updates0, mods0)
    requires created0 == TotalCreated(done0) && affected0 == TotalAffected(done0) && draw0 == 4 * affected0
    modifies cs
    ensures visited == fcurves[..i + 1] && done == Pass(lists[..i + 1], r, createMissing, rand)
    ensures NoisedSoFar(cs, visited, done, keys0, updates0, mods0)
    ensures created == TotalCreated(done) && affected == TotalAffected(done) && draw == 4 * affected
  {
    var fcurve := fcurves[i];
    DistinctNotBefore(fcurves, i);
    ghost var o := CurveResult(lists[i], r, createMissing, rand, draw0);
    PassStep(lists, i, r, createMissing, rand, done0, o);
    var c, a;
    c, a, draw := NoiseNext(fcurve, r, createMissing, rand, draw0, cs, visited0, done0, keys0, updates0, mods0);
    created := created0 + if c then 1 else 0;
    affected := affected0 + a;
    visited := visited0 + [fcurve];
    done := done0 + [o];
    TakeSnoc(fcurves, i);
  }

  /**
   * `ANIMATIONQOL_OT_randomize_noise_modifiers.execute`. No target curve
   * cancels with nothing changed. Otherwise the gathered curves are visited
   * in order, each as one pass (`CurveResult`) from where the draws of the
   * curves before it stopped; the other candidate curves are untouched.
   * Nothing randomised cancels.
   */
  method Execute(ctx: AnimContext, s: NoiseSettings, rand: nat -> real)
    returns (status: Status, created: nat, affected: nat, ghost before: seq<seq<Modifier>>)
    requires forall c :: c in CandidateCurves(ctx) ==> allocated(c)
    modifies CandidateCurves(ctx)
    ensures var fcurves := Gather(ctx, s.onlySelectedCurves, true);
      |before| == |fcurves| && forall j :: 0 <= j < |fcurves| ==>
        fcurves[j] in CandidateCurves(ctx) && before[j] == old(fcurves[j].modifiers)
    ensures var fcurves := Gather(ctx, s.onlySelectedCurves, true);
      fcurves == [] ==>
        && status == Cancelled && created == 0 && affected == 0
        && forall c :: c in CandidateCurves(ctx) ==> CurveNoised(c, old(c.modifiers), old(c.keys), old(c.updates))
    ensures var fcurves := Gather(ctx, s.onlySelectedCurves, true);
      var plan := Pass(before, RangesOf(s), s.createMissing, rand);
      fcurves != [] ==>
        && (forall c :: c in CandidateCurves(ctx) ==>
              CurveNoised(c, ResultFor(fcurves, plan, c, old(c.modifiers)), old(c.keys), old(c.updates)))
        && created == TotalCreated(plan) && affected == TotalAffected(plan)
        && status == (if affected == 0 then Cancelled else Finished)
  {
    var fcurves := GatherTargetFcurves(ctx, s.onlySelectedCurves, true);
    GatheredWithin(ctx, s.onlySelectedCurves, true);
    if fcurves == [] {
      return Cancelled, 0, 0, [];
    }
    created, affected, before := NoiseCurves(fcurves, RangesOf(s), s.createMissing, rand, CandidateCurves(ctx));
    status := if affected == 0 then Cancelled else Finished;
  }

  /** The curve loop of `execute` over the distinct candidates `fcurves`, with `before` their modifiers beforehand. */
  method NoiseCurves(fcurves: seq<FCurve>, r: Ranges, createMissing: bool, rand: nat -> real, ghost cs: set<FCurve>)
    returns (created: nat, affected: nat, ghost before: seq<seq<Modifier>>)
    requires Distinct(fcurves) && forall c :: c in fcurves ==> c in cs
    modifies cs
    ensures |before| == |fcurves| && forall j :: 0 <= j < |fcurves| ==> before[j] == old(fcurves[j].modifiers)
    ensures var plan := Pass(before, r, createMissing, rand);
      && (forall c :: c in cs ==> CurveNoised(c, ResultFor(fcurves, plan, c, old(c.modifiers)), old(c.keys), old(c.updates)))
      && created == TotalCreated(plan) && affected == TotalAffected(plan)
  {
    ghost var keys0 := map c | c in cs :: c.keys;
    ghost var updates0 := map c | c in cs :: c.updates;
    ghost var mods0 := map c | c in cs :: c.modifiers;
    before := ListsOf(fcurves, mods0);
    assert NoisedSoFar(cs, [], [], keys0, updates0, mods0);
    created, affected := NoiseLoop(fcurves, r, createMissing, rand, cs, keys0, updates0, mods0);
  }
}
