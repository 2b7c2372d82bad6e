/**
 * The Generate Auto Blinks operator: for every target object that has the
 * named shape key, key a neutral baseline and then a run of blinks across the
 * configured frame range. The random gap variation is a supplied function of
 * the draw number; the draw counter runs across all objects, as the single
 * random generator of `execute` does.
 */
module AutoBlink {
  import opened Common
  import opened HostData

  // ---------------------------------------------------------------------------
  // Settings and their normalisation
  // ---------------------------------------------------------------------------

  /** The blink fields of the scene settings. Frames are integers; the strength is a real. */
  datatype BlinkSettings = BlinkSettings(
    frameStart: int, frameEnd: int, interval: int, intervalRandom: int,
    closeFrames: int, openFrames: int, holdFrames: int,
    strength: real, useSelectedObjects: bool, shapeKeyName: string)

  /** The values the blink loop runs on, after normalisation. */
  datatype BlinkParams = BlinkParams(
    start: int, end: int, interval: int, randomness: int,
    close: int, open: int, hold: int, strength: real)
  {
    /** `blink_length = close_frames + hold_frames + open_frames`. */
    function Length(): int { close + hold + open }
  }

  /** What normalisation guarantees. */
  predicate ValidParams(p: BlinkParams)
  {
    && p.start <= p.end
    && p.interval >= 1 && p.randomness >= 0
    && p.close >= 1 && p.open >= 1 && p.hold >= 0
  }

  /** Order the frame range and clamp every count to its lower bound. */
  function Normalize(s: BlinkSettings): (p: BlinkParams)
    ensures ValidParams(p)
    ensures p.Length() >= 2
    ensures (p.start, p.end) == (s.frameStart, s.frameEnd) || (p.start, p.end) == (s.frameEnd, s.frameStart)
    ensures p.interval == s.interval || (s.interval < 1 && p.interval == 1)
    ensures p.randomness == s.intervalRandom || (s.intervalRandom < 0 && p.randomness == 0)
    ensures p.close == s.closeFrames || (s.closeFrames < 1 && p.close == 1)
    ensures p.open == s.openFrames || (s.openFrames < 1 && p.open == 1)
    ensures p.hold == s.holdFrames || (s.holdFrames < 0 && p.hold == 0)
    ensures p.strength == s.strength
  {
    BlinkParams(
      MinInt(s.frameStart, s.frameEnd), MaxInt(s.frameStart, s.frameEnd),
      MaxInt(1, s.interval), MaxInt(0, s.intervalRandom),
      MaxInt(1, s.closeFrames), MaxInt(1, s.openFrames), MaxInt(0, s.holdFrames),
      s.strength)
  }

  /** Settings that are already in range pass through unchanged. */
  lemma NormalizeKeepsValid(s: BlinkSettings)
    requires s.frameStart <= s.frameEnd && s.interval >= 1 && s.intervalRandom >= 0
    requires s.closeFrames >= 1 && s.openFrames >= 1 && s.holdFrames >= 0
    ensures Normalize(s) == BlinkParams(s.frameStart, s.frameEnd, s.interval, s.intervalRandom,
                                        s.closeFrames, s.openFrames, s.holdFrames, s.strength)
  {
  }

  // ---------------------------------------------------------------------------
  // The blink schedule
  // ---------------------------------------------------------------------------

  /** The variation drawn for the next gap: `randint` is only called when the randomness is non-zero. */
  function Draw(p: BlinkParams, variation: nat -> int, draws: nat): int
  {
    if p.randomness != 0 then variation(draws) else 0
  }

  /** The draw counter after one more blink. */
  function NextDraws(p: BlinkParams, draws: nat): nat
  {
    if p.randomness != 0 then draws + 1 else draws
  }

  /** `next_gap = max(1, interval + interval_variation)`. */
  function Gap(p: BlinkParams, variation: nat -> int, draws: nat): (g: int)
    ensures g >= 1
    ensures g >= p.interval + Draw(p, variation, draws)
  {
    MaxInt(1, p.interval + Draw(p, variation, draws))
  }

  /** Each blink of `r` starts at least one frame after every earlier one (of length `len`) has reopened. */
  predicate Spaced(r: seq<int>, len: int)
  {
    forall i, j :: 0 <= i < j < |r| ==> r[i] + len + 1 <= r[j]
  }

  /**
   * The start frames of the blinks the loop emits from `current` on. Every
   * blink ends by `end`, and each one starts at least one frame after the
   * previous one has reopened, so the starts strictly increase.
   */
  function Starts(p: BlinkParams, current: int, variation: nat -> int, draws: nat): seq<int>
    requires ValidParams(p)
    decreases p.end - current
  {
    if current + p.Length() > p.end then []
    else [current] + Starts(p, current + p.Length() + Gap(p, variation, draws), variation, NextDraws(p, draws))
  }

  /** Every blink of `r` starts at or after `from` and has reopened by `end`. */
  predicate InRange(r: seq<int>, from: int, len: int, end: int)
  {
    forall i :: 0 <= i < |r| ==> from <= r[i] && r[i] + len <= end
  }

  /**
   * The blinks scheduled from `current` on start there, lie within the
   * range, and each starts after the previous one has reopened: the loop
   * never emits a blink that would end after `frame_end`.
   */
  lemma {:induction false} StartsShape(p: BlinkParams, current: int, variation: nat -> int, draws: nat)
    requires ValidParams(p)
    ensures var r := Starts(p, current, variation, draws);
      && InRange(r, current, p.Length(), p.end)
      && Spaced(r, p.Length())
      && (r != [] ==> r[0] == current)
    decreases p.end - current
  {
    if current + p.Length() <= p.end {
      var next := current + p.Length() + Gap(p, variation, draws);
      var rest := Starts(p, next, variation, NextDraws(p, draws));
      StartsShape(p, next, variation, NextDraws(p, draws));
      assert Starts(p, current, variation, draws) == [current] + rest;
    }
  }

  /** Every gap between one blink's reopening and the next start lies in `[lo, hi]`. */
  ghost predicate GapsWithin(r: seq<int>, len: int, lo: int, hi: int)
  {
    forall i, j :: 0 <= i < j < |r| && j == i + 1 ==> lo <= r[j] - (r[i] + len) <= hi
  }

  /**
   * With every variation within `[-randomness, randomness]`, the gap between
   * one blink's reopening and the next start lies between
   * `max(1, interval - randomness)` and `max(1, interval + randomness)`.
   */
  lemma {:induction false} StartsSpacing(p: BlinkParams, current: int, variation: nat -> int, draws: nat)
    requires ValidParams(p)
    requires forall k: nat :: -p.randomness <= variation(k) <= p.randomness
    ensures GapsWithin(Starts(p, current, variation, draws), p.Length(),
                       MaxInt(1, p.interval - p.randomness), MaxInt(1, p.interval + p.randomness))
    decreases p.end - current
  {
    var lo, hi := MaxInt(1, p.interval - p.randomness), MaxInt(1, p.interval + p.randomness);
    var r := Starts(p, current, variation, draws);
    if r != [] {
      var g := Gap(p, variation, draws);
      var next := current + p.Length() + g;
      var rest := Starts(p, next, variation, NextDraws(p, draws));
      assert r == [current] + rest;
      StartsSpacing(p, next, variation, NextDraws(p, draws));
      var d := Draw(p, variation, draws);
      assert -p.randomness <= d <= p.randomness;
      assert lo <= g <= hi;
      forall i, j | 0 <= i < j < |r| && j == i + 1 ensures lo <= r[j] - (r[i] + p.Length()) <= hi {
        if i == 0 {
          assert r[1] == rest[0] == next;
        } else {
          assert r[j] == rest[j - 1] && r[i] == rest[i - 1];
        }
      }
    }
  }

  // ---------------------------------------------------------------------------
  // Keyframe writes
  // ---------------------------------------------------------------------------

  /** One `_insert_keyframe(block, value, frame)` call. */
  datatype KeyWrite = KeyWrite(frame: int, value: real)

  /** The keys one blink starting at `s` writes, in order. */
  function BlinkWrites(p: BlinkParams, s: int): seq<KeyWrite>
  {
    var closeEnd := s + p.close;
    var holdEnd := closeEnd + p.hold;
    var openEnd := holdEnd + p.open;
    [KeyWrite(MaxInt(p.start, s - 1), 0.0), KeyWrite(closeEnd, p.strength)]
    + (if p.hold != 0 then [KeyWrite(holdEnd, p.strength)] else [])
    + [KeyWrite(openEnd, 0.0)]
  }

  /** The writes of a run of blinks, blink by blink. */
  function ScheduleWrites(p: BlinkParams, starts: seq<int>): seq<KeyWrite>
  {
    if starts == [] then []
    else ScheduleWrites(p, starts[..|starts| - 1]) + BlinkWrites(p, starts[|starts| - 1])
  }

  /** The two baseline keys, then every blink of the schedule. */
  function ObjectWrites(p: BlinkParams, variation: nat -> int, draws: nat): (ws: seq<KeyWrite>)
    requires ValidParams(p)
    ensures |ws| >= 2
  {
    [KeyWrite(p.start, 0.0), KeyWrite(p.end + 1, 0.0)] + ScheduleWrites(p, Starts(p, p.start, variation, draws))
  }

  /** The frame -> value map after the writes: a later write to a frame replaces an earlier one. */
  function ApplyWrites(m: map<int, real>, ws: seq<KeyWrite>): map<int, real>
  {
    if ws == [] then m
    else ApplyWrites(m, ws[..|ws| - 1])[ws[|ws| - 1].frame := ws[|ws| - 1].value]
  }

  /** One more write is one more map update. */
  lemma ApplyWritesSnoc(m: map<int, real>, ws: seq<KeyWrite>, w: KeyWrite)
    ensures ApplyWrites(m, ws + [w]) == ApplyWrites(m, ws)[w.frame := w.value]
  {
    assert (ws + [w])[..|ws|] == ws;
  }

  lemma {:induction false} ApplyWritesConcat(m: map<int, real>, a: seq<KeyWrite>, b: seq<KeyWrite>)
    ensures ApplyWrites(m, a + b) == ApplyWrites(ApplyWrites(m, a), b)
    decreases |b|
  {
    if b == [] {
      assert a + b == a;
    } else {
      var n := |b| - 1;
      assert (a + b)[..|a + b| - 1] == a + b[..n];
      ApplyWritesConcat(m, a, b[..n]);
    }
  }

  /** A frame no write names keeps whatever the map had there (or stays absent). */
  lemma {:induction false} ApplyWritesUntouched(m: map<int, real>, ws: seq<KeyWrite>, f: int)
    requires forall w :: w in ws ==> w.frame != f
    ensures f in ApplyWrites(m, ws) <==> f in m
    ensures f in m ==> ApplyWrites(m, ws)[f] == m[f]
  {
    if ws != [] {
      assert ws[|ws| - 1] in ws;
      ApplyWritesUntouched(m, ws[..|ws| - 1], f);
    }
  }

  /** A frame that some write names is keyed, with the value of the last such write. */
  lemma {:induction false} ApplyWritesLastWins(m: map<int, real>, ws: seq<KeyWrite>, i: nat)
    requires i < |ws|
    requires forall j :: i < j < |ws| ==> ws[j].frame != ws[i].frame
    ensures ws[i].frame in ApplyWrites(m, ws)
    ensures ApplyWrites(m, ws)[ws[i].frame] == ws[i].value
  {
    var n := |ws| - 1;
    if i < n {
      ApplyWritesLastWins(m, ws[..n], i);
    }
  }

  /** Every frame the writes name ends up keyed. */
  lemma {:induction false} ApplyWritesKeys(m: map<int, real>, ws: seq<KeyWrite>)
    ensures ApplyWrites(m, ws).Keys == m.Keys + (set w | w in ws :: w.frame)
  {
    if ws != [] {
      var n := |ws| - 1;
      ApplyWritesKeys(m, ws[..n]);
      assert ws == ws[..n] + [ws[n]];
    }
  }

  /** A frame to which every write gives the same value `v` holds `v` once written at all. */
  lemma {:induction false} ApplyWritesUniform(m: map<int, real>, ws: seq<KeyWrite>, f: int, v: real)
    requires exists w :: w in ws && w.frame == f
    requires forall w :: w in ws && w.frame == f ==> w.value == v
    ensures f in ApplyWrites(m, ws) && ApplyWrites(m, ws)[f] == v
  {
    var n := |ws| - 1;
    if ws[n].frame != f {
      var w :| w in ws && w.frame == f;
      assert w in ws[..n] by {
        var k :| 0 <= k < |ws| && ws[k] == w;
        assert k < n;
      }
      ApplyWritesUniform(m, ws[..n], f, v);
    }
  }

  /**
   * The frames a blink schedule writes: each lies in `[start, end]`; the
   * only writes at `start` are zeros; every value is zero or the strength.
   */
  lemma {:induction false} ScheduleWritesFrames(p: BlinkParams, starts: seq<int>)
    requires ValidParams(p)
    requires forall i :: 0 <= i < |starts| ==> p.start <= starts[i] && starts[i] + p.Length() <= p.end
    ensures forall w :: w in ScheduleWrites(p, starts) ==>
      && p.start <= w.frame <= p.end
      && (w.frame == p.start ==> w.value == 0.0)
      && (w.value == 0.0 || w.value == p.strength)
  {
    if starts != [] {
      var n := |starts| - 1;
      ScheduleWritesFrames(p, starts[..n]);
    }
  }

  lemma {:induction false} ScheduleWritesConcat(p: BlinkParams, a: seq<int>, b: seq<int>)
    ensures ScheduleWrites(p, a + b) == ScheduleWrites(p, a) + ScheduleWrites(p, b)
    decreases |b|
  {
    if b == [] {
      assert a + b == a;
    } else {
      var n := |b| - 1;
      assert (a + b)[..|a + b| - 1] == a + b[..n];
      ScheduleWritesConcat(p, a, b[..n]);
    }
  }

  /** The writes of blinks that start after frame `f` do not touch any frame below `f`. */
  lemma {:induction false} ScheduleWritesAbove(p: BlinkParams, starts: seq<int>, f: int)
    requires ValidParams(p) && p.start <= f
    requires forall i :: 0 <= i < |starts| ==> f + 1 <= starts[i]
    ensures forall w :: w in ScheduleWrites(p, starts) ==> w.frame >= f
  {
    if starts != [] {
      ScheduleWritesAbove(p, starts[..|starts| - 1], f);
    }
  }

  /**
   * What one object's shape key holds after the pass: zero at `start` and at
   * `end + 1`, the strength at every blink's close frame (and hold frame when
   * there is a hold), every new key within `[start, end + 1]`, and every
   * frame the pass does not write as it was.
   */
  lemma ObjectKeys(m: map<int, real>, p: BlinkParams, variation: nat -> int, draws: nat)
    requires ValidParams(p)
    ensures var r := ApplyWrites(m, ObjectWrites(p, variation, draws));
      && p.start in r && r[p.start] == 0.0
      && p.end + 1 in r && r[p.end + 1] == 0.0
      && (forall f :: f in r && f !in m ==> p.start <= f <= p.end + 1)
      && (forall f :: f in m && (f < p.start || f > p.end + 1) ==> f in r && r[f] == m[f])
  {
    var starts := Starts(p, p.start, variation, draws);
    StartsShape(p, p.start, variation, draws);
    ScheduleWritesFrames(p, starts);
    var sw := ScheduleWrites(p, starts);
    assert ObjectWrites(p, variation, draws) == [KeyWrite(p.start, 0.0), KeyWrite(p.end + 1, 0.0)] + sw;
    BaselineStart(m, p, sw);
    BaselineEnd(m, p, sw);
    BaselineNewKeys(m, p, sw);
    BaselineOutside(m, p, sw);
  }

  /** Writes that stay within `[start, end]` and write only zeros at `start`. */
  ghost predicate WithinRange(p: BlinkParams, sw: seq<KeyWrite>)
  {
    forall w :: w in sw ==> p.start <= w.frame <= p.end && (w.frame == p.start ==> w.value == 0.0)
  }

  lemma BaselineStart(m: map<int, real>, p: BlinkParams, sw: seq<KeyWrite>)
    requires WithinRange(p, sw)
    ensures var r := ApplyWrites(m, [KeyWrite(p.start, 0.0), KeyWrite(p.end + 1, 0.0)] + sw);
      p.start in r && r[p.start] == 0.0
  {
    var ws := [KeyWrite(p.start, 0.0), KeyWrite(p.end + 1, 0.0)] + sw;
    assert ws[0] in ws;
    ApplyWritesUniform(m, ws, p.start, 0.0);
  }

  lemma BaselineEnd(m: map<int, real>, p: BlinkParams, sw: seq<KeyWrite>)
    requires WithinRange(p, sw)
    ensures var r := ApplyWrites(m, [KeyWrite(p.start, 0.0), KeyWrite(p.end + 1, 0.0)] + sw);
      p.end + 1 in r && r[p.end + 1] == 0.0
  {
    var ws := [KeyWrite(p.start, 0.0), KeyWrite(p.end + 1, 0.0)] + sw;
    forall j | 1 < j < |ws| ensures ws[j].frame != p.end + 1 {
      assert ws[j] == sw[j - 2];
      assert sw[j - 2] in sw;
    }
    ApplyWritesLastWins(m, ws, 1);
  }

  lemma BaselineNewKeys(m: map<int, real>, p: BlinkParams, sw: seq<KeyWrite>)
    requires p.start <= p.end
    requires WithinRange(p, sw)
    ensures var r := ApplyWrites(m, [KeyWrite(p.start, 0.0), KeyWrite(p.end + 1, 0.0)] + sw);
      forall f :: f in r && f !in m ==> p.start <= f <= p.end + 1
  {
    var ws := [KeyWrite(p.start, 0.0), KeyWrite(p.end + 1, 0.0)] + sw;
    ApplyWritesKeys(m, ws);
  }

  lemma BaselineOutside(m: map<int, real>, p: BlinkParams, sw: seq<KeyWrite>)
    requires p.start <= p.end
    requires WithinRange(p, sw)
    ensures var r := ApplyWrites(m, [KeyWrite(p.start, 0.0), KeyWrite(p.end + 1, 0.0)] + sw);
      forall f :: f in m && (f < p.start || f > p.end + 1) ==> f in r && r[f] == m[f]
  {
    var ws := [KeyWrite(p.start, 0.0), KeyWrite(p.end + 1, 0.0)] + sw;
    forall f | f in m && (f < p.start || f > p.end + 1)
      ensures f in ApplyWrites(m, ws) && ApplyWrites(m, ws)[f] == m[f]
    {
      ApplyWritesUntouched(m, ws, f);
    }
  }

  /** The writes of blink `k` sit between those of the earlier and the later blinks, which start after it reopens. */
  lemma ScheduleSplit(p: BlinkParams, starts: seq<int>, k: nat)
    requires ValidParams(p) && k < |starts|
    requires InRange(starts, p.start, p.Length(), p.end)
    requires Spaced(starts, p.Length())
    ensures ScheduleWrites(p, starts)
         == ScheduleWrites(p, starts[..k]) + BlinkWrites(p, starts[k]) + ScheduleWrites(p, starts[k + 1..])
    ensures forall w :: w in ScheduleWrites(p, starts[k + 1..]) ==> w.frame >= starts[k] + p.Length()
  {
    var s := starts[k];
    var after := starts[k + 1..];
    assert starts == starts[..k] + [s] + after;
    ScheduleWritesAround(p, starts[..k], s, after);
    assert forall i :: 0 <= i < |after| ==> s + p.Length() + 1 <= after[i] by {
      forall i | 0 <= i < |after| ensures s + p.Length() + 1 <= after[i] {
        assert after[i] == starts[k + 1 + i];
      }
    }
    ScheduleWritesAbove(p, after, s + p.Length());
  }

  /** The writes of a schedule split at one start are the three parts' writes in order. */
  lemma ScheduleWritesAround(p: BlinkParams, before: seq<int>, s: int, after: seq<int>)
    ensures ScheduleWrites(p, before + [s] + after)
         == ScheduleWrites(p, before) + BlinkWrites(p, s) + ScheduleWrites(p, after)
  {
    ScheduleWritesConcat(p, before + [s], after);
    ScheduleWritesConcat(p, before, [s]);
    assert [s][..0] == [];
  }

  /** One blink's own writes leave the strength at its close frame and, with a hold, at its hold frame. */
  lemma BlinkWritesPeak(m: map<int, real>, p: BlinkParams, s: int)
    requires ValidParams(p)
    ensures var r := ApplyWrites(m, BlinkWrites(p, s));
      && s + p.close in r && r[s + p.close] == p.strength
      && (p.hold > 0 ==> s + p.close + p.hold in r && r[s + p.close + p.hold] == p.strength)
  {
    var bw := BlinkWrites(p, s);
    if p.hold != 0 {
      ApplyWritesLastWins(m, bw, 1);
      ApplyWritesLastWins(m, bw, 2);
    } else {
      ApplyWritesLastWins(m, bw, 1);
    }
  }

  /** A value written by the middle writes survives later writes that name other frames. */
  lemma MiddleWriteSurvives(m: map<int, real>, head: seq<KeyWrite>, mid: seq<KeyWrite>, tail: seq<KeyWrite>,
                            f: int, v: real)
    requires var r := ApplyWrites(ApplyWrites(m, head), mid); f in r && r[f] == v
    requires forall w :: w in tail ==> w.frame != f
    ensures f in ApplyWrites(m, head + mid + tail) && ApplyWrites(m, head + mid + tail)[f] == v
  {
    ApplyWritesConcat(m, head + mid, tail);
    ApplyWritesConcat(m, head, mid);
    ApplyWritesUntouched(ApplyWrites(ApplyWrites(m, head), mid), tail, f);
  }

  /** The writes of one object split around blink `k`; the later blinks write only after it reopens. */
  lemma ObjectWritesAround(p: BlinkParams, variation: nat -> int, draws: nat, k: nat)
    requires ValidParams(p)
    requires k < |Starts(p, p.start, variation, draws)|
    ensures var starts := Starts(p, p.start, variation, draws);
      var head := [KeyWrite(p.start, 0.0), KeyWrite(p.end + 1, 0.0)] + ScheduleWrites(p, starts[..k]);
      var tail := ScheduleWrites(p, starts[k + 1..]);
      && ObjectWrites(p, variation, draws) == head + BlinkWrites(p, starts[k]) + tail
      && forall w :: w in tail ==> w.frame >= starts[k] + p.Length()
  {
    var starts := Starts(p, p.start, variation, draws);
    StartsShape(p, p.start, variation, draws);
    ScheduleSplit(p, starts, k);
    var base := [KeyWrite(p.start, 0.0), KeyWrite(p.end + 1, 0.0)];
    var sw := ScheduleWrites(p, starts);
    assert ObjectWrites(p, variation, draws) == base + sw;
    RegroupWrites(base, ScheduleWrites(p, starts[..k]), BlinkWrites(p, starts[k]), ScheduleWrites(p, starts[k + 1..]));
  }

  lemma RegroupWrites(a: seq<KeyWrite>, b: seq<KeyWrite>, c: seq<KeyWrite>, d: seq<KeyWrite>)
    ensures a + (b + c + d) == (a + b) + c + d
  {
  }

  /** The frame `f`, written with the strength by blink `k`, still holds it after the whole pass. */
  lemma BlinkPeakAt(m: map<int, real>, p: BlinkParams, variation: nat -> int, draws: nat, k: nat, f: int)
    requires ValidParams(p)
    requires k < |Starts(p, p.start, variation, draws)|
    requires var s := Starts(p, p.start, variation, draws)[k];
      f == s + p.close || (p.hold > 0 && f == s + p.close + p.hold)
    ensures var r := ApplyWrites(m, ObjectWrites(p, variation, draws)); f in r && r[f] == p.strength
  {
    var starts := Starts(p, p.start, variation, draws);
    var s := starts[k];
    var head := [KeyWrite(p.start, 0.0), KeyWrite(p.end + 1, 0.0)] + ScheduleWrites(p, starts[..k]);
    ObjectWritesAround(p, variation, draws, k);
    BlinkWritesPeak(ApplyWrites(m, head), p, s);
    MiddleWriteSurvives(m, head, BlinkWrites(p, s), ScheduleWrites(p, starts[k + 1..]), f, p.strength);
  }

  /** Every blink reaches the full strength at its close frame and, with a hold, at its hold frame. */
  lemma BlinkPeaks(m: map<int, real>, p: BlinkParams, variation: nat -> int, draws: nat, k: nat)
    requires ValidParams(p)
    requires k < |Starts(p, p.start, variation, draws)|
    ensures var s := Starts(p, p.start, variation, draws)[k];
      var r := ApplyWrites(m, ObjectWrites(p, variation, draws));
      && s + p.close in r && r[s + p.close] == p.strength
      && (p.hold > 0 ==> s + p.close + p.hold in r && r[s + p.close + p.hold] == p.strength)
  {
    var s := Starts(p, p.start, variation, draws)[k];
    BlinkPeakAt(m, p, variation, draws, k, s + p.close);
    if p.hold > 0 {
      BlinkPeakAt(m, p, variation, draws, k, s + p.close + p.hold);
    }
  }

  // ---------------------------------------------------------------------------
  // The blink loop for one shape key
  // ---------------------------------------------------------------------------

  /** `_insert_keyframe`: set the value, then key it at the frame (replacing any key there). */
  method InsertKeyframe(block: ShapeKeyBlock, value: real, frame: int)
    modifies block
    ensures block.value == value
    ensures block.keys == old(block.keys)[frame := value]
  {
    block.value := value;
    block.keys := block.keys[frame := value];
  }

  /** The map after one more blink of the loop is the map after one more blink of the schedule. */
  lemma BlinkLoopStep(keys1: map<int, real>, p: BlinkParams, done: seq<int>, s: int)
    ensures ApplyWrites(ApplyWrites(keys1, ScheduleWrites(p, done)), BlinkWrites(p, s))
         == ApplyWrites(keys1, ScheduleWrites(p, done + [s]))
  {
    ApplyWritesConcat(keys1, ScheduleWrites(p, done), BlinkWrites(p, s));
    assert (done + [s])[..|done|] == done;
  }

  /** The schedule still to run loses its first blink to the blinks done. */
  lemma StartsStep(p: BlinkParams, current: int, variation: nat -> int, draws: nat, done: seq<int>, all: seq<int>)
    requires ValidParams(p) && current + p.Length() <= p.end
    requires all == done + Starts(p, current, variation, draws)
    ensures all == (done + [current])
                   + Starts(p, current + p.Length() + Gap(p, variation, draws), variation, NextDraws(p, draws))
  {
    var rest := Starts(p, current + p.Length() + Gap(p, variation, draws), variation, NextDraws(p, draws));
    assert Starts(p, current, variation, draws) == [current] + rest;
    assert done + ([current] + rest) == (done + [current]) + rest;
  }

  /** The four (three without a hold) keys of one blink starting at `blinkStart`. */
  method EmitBlink(block: ShapeKeyBlock, p: BlinkParams, blinkStart: int)
    modifies block
    ensures block.keys == ApplyWrites(old(block.keys), BlinkWrites(p, blinkStart))
    ensures block.value == 0.0
  {
    ghost var before := block.keys;
    ghost var bw := BlinkWrites(p, blinkStart);
    var closeEnd := blinkStart + p.close;
    var holdEnd := closeEnd + p.hold;
    var openEnd := holdEnd + p.open;
    InsertKeyframe(block, 0.0, MaxInt(p.start, blinkStart - 1));
    ApplyWritesSnoc(before, [], bw[0]);
    InsertKeyframe(block, p.strength, closeEnd);
    ApplyWritesSnoc(before, [bw[0]], bw[1]);
    if p.hold != 0 {
      InsertKeyframe(block, p.strength, holdEnd);
      ApplyWritesSnoc(before, [bw[0], bw[1]], bw[2]);
      InsertKeyframe(block, 0.0, openEnd);
      ApplyWritesSnoc(before, [bw[0], bw[1], bw[2]], bw[3]);
      assert [bw[0], bw[1], bw[2]] + [bw[3]] == bw;
    } else {
      InsertKeyframe(block, 0.0, openEnd);
      ApplyWritesSnoc(before, [bw[0], bw[1]], bw[2]);
      assert [bw[0], bw[1]] + [bw[2]] == bw;
    }
  }

  /**
   * The per-object body of `execute`: the baseline keys, then the `while`
   * loop. The block ends keyed by `ObjectWrites`, its value is zero (the last
   * write of the pass is always a zero), the count is the number of blinks,
   * and one variation is drawn per blink when the randomness is non-zero.
   */
  method BlinkObject(block: ShapeKeyBlock, p: BlinkParams, variation: nat -> int, draws0: nat)
    returns (blinkCount: nat, draws: nat)
    requires ValidParams(p)
    modifies block
    ensures block.keys == ApplyWrites(old(block.keys), ObjectWrites(p, variation, draws0))
    ensures block.value == 0.0
    ensures blinkCount == |Starts(p, p.start, variation, draws0)|
    ensures draws == draws0 + (if p.randomness != 0 then blinkCount else 0)
  {
    ghost var keys0 := block.keys;
    InsertKeyframe(block, 0.0, p.start);
    InsertKeyframe(block, 0.0, p.end + 1);
    blinkCount, draws := BlinkLoop(block, p, variation, draws0);
    BaselineThenSchedule(keys0, p, Starts(p, p.start, variation, draws0));
  }

  /** The baseline writes are two map updates, and the schedule's writes follow them. */
  lemma BaselineThenSchedule(keys0: map<int, real>, p: BlinkParams, starts: seq<int>)
    ensures ApplyWrites(keys0, [KeyWrite(p.start, 0.0), KeyWrite(p.end + 1, 0.0)] + ScheduleWrites(p, starts))
         == ApplyWrites(keys0[p.start := 0.0][p.end + 1 := 0.0], ScheduleWrites(p, starts))
  {
    var base := [KeyWrite(p.start, 0.0), KeyWrite(p.end + 1, 0.0)];
    ApplyWritesConcat(keys0, base, ScheduleWrites(p, starts));
    ApplyWritesSnoc(keys0, [], base[0]);
    ApplyWritesSnoc(keys0, [base[0]], base[1]);
    assert [base[0]] + [base[1]] == base;
  }

  /** The `while` loop of the per-object body: one blink per scheduled start. */
  method BlinkLoop(block: ShapeKeyBlock, p: BlinkParams, variation: nat -> int, draws0: nat)
    returns (blinkCount: nat, draws: nat)
    requires ValidParams(p)
    requires block.value == 0.0
    modifies block
    ensures block.keys == ApplyWrites(old(block.keys), ScheduleWrites(p, Starts(p, p.start, variation, draws0)))
    ensures block.value == 0.0
    ensures blinkCount == |Starts(p, p.start, variation, draws0)|
    ensures draws == draws0 + (if p.randomness != 0 then blinkCount else 0)
  {
    ghost var keys1 := block.keys;
    ghost var all := Starts(p, p.start, variation, draws0);
    var current := p.start;
    blinkCount := 0;
    draws := draws0;
    ghost var done: seq<int> := [];
    while current + p.Length() <= p.end
      invariant all == done + Starts(p, current, variation, draws)
      invariant blinkCount == |done|
      invariant draws == draws0 + (if p.randomness != 0 then |done| else 0)
      invariant block.keys == ApplyWrites(keys1, ScheduleWrites(p, done))
      invariant block.value == 0.0
      decreases p.end - current
    {
      StartsStep(p, current, variation, draws, done, all);
      ghost var blinkStart := current;
      current, draws := BlinkOnce(block, p, variation, current, draws, keys1, done);
      blinkCount := blinkCount + 1;
      done := done + [blinkStart];
    }
    assert Starts(p, current, variation, draws) == [];
    assert all == done;
  }

  /**
   * One iteration of the loop: emit the blink starting at `current`, then
   * draw the variation (only when the randomness is non-zero) and move past
   * the reopening by the gap.
   */
  method BlinkOnce(block: ShapeKeyBlock, p: BlinkParams, variation: nat -> int, current: int, draws: nat,
                   ghost keys1: map<int, real>, ghost done: seq<int>)
    returns (next: int, nextDraws: nat)
    requires block.keys == ApplyWrites(keys1, ScheduleWrites(p, done))
    modifies block
    ensures block.keys == ApplyWrites(keys1, ScheduleWrites(p, done + [current]))
    ensures block.value == 0.0
    ensures next == current + p.Length() + Gap(p, variation, draws)
    ensures nextDraws == NextDraws(p, draws)
  {
    var blinkStart := current;
    var openEnd := blinkStart + p.close + p.hold + p.open;
    EmitBlink(block, p, blinkStart);
    BlinkLoopStep(keys1, p, done, blinkStart);
    var intervalVariation := if p.randomness != 0 then variation(draws) else 0;
    var nextGap := MaxInt(1, p.interval + intervalVariation);
    next := openEnd + nextGap;
    nextDraws := draws;
    if p.randomness != 0 {
      nextDraws := draws + 1;
    }
  }

  // ---------------------------------------------------------------------------
  // Targets, the shape-key name, and execute
  // ---------------------------------------------------------------------------

  /** `_iter_target_objects`: the objects (selected, or all in the scene) that have shape keys, in order. */
  function WithShapeKeys(objs: seq<SceneObject>): (r: seq<SceneObject>)
    ensures forall i :: 0 <= i < |r| ==> r[i] in objs && r[i].hasShapeKeys
    ensures forall i :: 0 <= i < |objs| && objs[i].hasShapeKeys ==> objs[i] in r
    ensures |r| <= |objs|
  {
    if objs == [] then []
    else WithShapeKeys(objs[..|objs| - 1]) + (if objs[|objs| - 1].hasShapeKeys then [objs[|objs| - 1]] else [])
  }

  /** What `execute` reads from the host context. */
  datatype BlinkContext = BlinkContext(selectedObjects: seq<SceneObject>, sceneObjects: seq<SceneObject>)

  function TargetObjects(ctx: BlinkContext, useSelected: bool): seq<SceneObject>
  {
    WithShapeKeys(if useSelected then ctx.selectedObjects else ctx.sceneObjects)
  }

  /**
   * The characters `str.strip()` removes, those for which `str.isspace()`
   * holds: the ASCII controls U+0009 to U+000D and U+001C to U+001F, the
   * space, U+0085, U+00A0, U+1680, U+2000 to U+200A, U+2028, U+2029, U+202F,
   * U+205F and U+3000.
   */
  predicate IsSpace(c: char)
  {
    || ('\t' <= c <= '\r')
    || ('\U{1C}' <= c <= ' ')
    || c == '\U{85}' || c == '\U{A0}' || c == '\U{1680}'
    || ('\U{2000}' <= c <= '\U{200A}')
    || c == '\U{2028}' || c == '\U{2029}' || c == '\U{202F}' || c == '\U{205F}' || c == '\U{3000}'
  }

  /** The number of whitespace characters `s` starts with. */
  function LeadingSpace(s: string): (n: nat)
    ensures n <= |s|
    ensures forall i :: 0 <= i < n ==> IsSpace(s[i])
    ensures n < |s| ==> !IsSpace(s[n])
    decreases |s|
  {
    if s != [] && IsSpace(s[0]) then 1 + LeadingSpace(s[1..]) else 0
  }

  /** The end of `s[lo..hi]` once its trailing whitespace is dropped. */
  function TrimmedEnd(s: string, lo: nat, hi: nat): (j: nat)
    requires lo <= hi <= |s|
    ensures lo <= j <= hi
    ensures forall i :: j <= i < hi ==> IsSpace(s[i])
    ensures j > lo ==> !IsSpace(s[j - 1])
    decreases hi
  {
    if hi > lo && IsSpace(s[hi - 1]) then TrimmedEnd(s, lo, hi - 1) else hi
  }

  /** `str.strip()`: a slice of `s` that neither starts nor ends with whitespace, empty iff `s` is all whitespace. */
  function Strip(s: string): (r: string)
    ensures exists i, j :: 0 <= i <= j <= |s| && r == s[i..j]
    ensures r == [] || (!IsSpace(r[0]) && !IsSpace(r[|r| - 1]))
    ensures r == [] <==> forall i :: 0 <= i < |s| ==> IsSpace(s[i])
  {
    var i := LeadingSpace(s);
    var j := TrimmedEnd(s, i, |s|);
    assert i < |s| ==> j > i;
    s[i..j]
  }

  /** A trailing no-break space is stripped, as Python strips every Unicode space. */
  lemma StripNoBreakSpace()
    ensures Strip("Blink\U{A0}") == "Blink"
  {
    var s := "Blink\U{A0}";
    assert LeadingSpace(s) == 0;
    assert TrimmedEnd(s, 0, 6) == TrimmedEnd(s, 0, 5);
    assert s[0..5] == "Blink";
  }

  /** What happened to one target object. */
  datatype Outcome =
    | Missing(objectName: string)
    | Keyed(block: ShapeKeyBlock, blinks: nat, writes: seq<KeyWrite>)

  /** The outcome of every target in order, threading the draw counter across objects. */
  function Plan(p: BlinkParams, name: string, targets: seq<SceneObject>, variation: nat -> int, draws: nat): (r: seq<Outcome>)
    requires ValidParams(p)
    ensures |r| == |targets|
  {
    if targets == [] then []
    else
      var o := targets[0];
      if name !in o.shapeKeyBlocks then [Missing(o.name)] + Plan(p, name, targets[1..], variation, draws)
      else
        var n := |Starts(p, p.start, variation, draws)|;
        [Keyed(o.shapeKeyBlocks[name], n, ObjectWrites(p, variation, draws))]
        + Plan(p, name, targets[1..], variation, draws + (if p.randomness != 0 then n else 0))
  }

  /** Every write the outcomes make to block `b`, in order (a block shared by several objects collects them all). */
  function BlockWrites(outcomes: seq<Outcome>, b: ShapeKeyBlock): seq<KeyWrite>
  {
    if outcomes == [] then []
    else
      var last := outcomes[|outcomes| - 1];
      BlockWrites(outcomes[..|outcomes| - 1], b) + (if last.Keyed? && last.block == b then last.writes else [])
  }

  /** `processed`: the objects that received at least one blink. */
  function Processed(outcomes: seq<Outcome>): (n: nat)
    ensures n <= |outcomes|
  {
    if outcomes == [] then 0
    else
      var last := outcomes[|outcomes| - 1];
      Processed(outcomes[..|outcomes| - 1]) + (if last.Keyed? && last.blinks > 0 then 1 else 0)
  }

  /** `missing`: the names of the objects without the shape key, in order. */
  function MissingNames(outcomes: seq<Outcome>): (r: seq<string>)
    ensures |r| <= |outcomes|
  {
    if outcomes == [] then []
    else
      var last := outcomes[|outcomes| - 1];
      MissingNames(outcomes[..|outcomes| - 1]) + (if last.Missing? then [last.objectName] else [])
  }

  /** The shape keys `execute` could key: the named block of each target that has it. */
  ghost function TargetBlocks(targets: seq<SceneObject>, name: string): set<ShapeKeyBlock>
  {
    set o | o in targets && name in o.shapeKeyBlocks :: o.shapeKeyBlocks[name]
  }

  /** Every object without the named block is reported missing, and every missing name is such an object's. */
  lemma {:induction false} PlanOutcomes(p: BlinkParams, name: string, targets: seq<SceneObject>, variation: nat -> int, draws: nat)
    requires ValidParams(p)
    ensures var r := Plan(p, name, targets, variation, draws);
      forall i :: 0 <= i < |targets| ==>
        && (r[i].Missing? <==> name !in targets[i].shapeKeyBlocks)
        && (r[i].Missing? ==> r[i].objectName == targets[i].name)
        && (r[i].Keyed? ==> r[i].block == targets[i].shapeKeyBlocks[name])
  {
    if targets != [] {
      var o := targets[0];
      var d := if name !in o.shapeKeyBlocks then draws
               else draws + (if p.randomness != 0 then |Starts(p, p.start, variation, draws)| else 0);
      PlanOutcomes(p, name, targets[1..], variation, d);
    }
  }

  /** The missing-name list as reported: at most five names, and whether "..." follows. */
  function TruncatedMissing(missing: seq<string>): (r: (seq<string>, bool))
    ensures |r.0| <= 5 && |r.0| <= |missing| && r.0 == missing[..|r.0|]
    ensures r.1 <==> |r.0| < |missing|
    ensures |missing| <= 5 ==> r.0 == missing
  {
    if |missing| <= 5 then (missing, false) else (missing[..5], true)
  }

  /** The state of block `b` after the outcomes `done`, from keys `keys0` and value `value0`. */
  ghost predicate BlockState(b: ShapeKeyBlock, done: seq<Outcome>, keys0: map<int, real>, value0: real)
    reads b
  {
    BlockValues(b.keys, b.value, BlockWrites(done, b), keys0, value0)
  }

  /** Keys and value of a block after the writes `ws`, from keys `keys0` and value `value0`. */
  ghost predicate BlockValues(keys: map<int, real>, value: real, ws: seq<KeyWrite>, keys0: map<int, real>, value0: real)
  {
    && keys == ApplyWrites(keys0, ws)
    && value == (if ws == [] then value0 else 0.0)
  }

  /** Applying a further non-empty run of writes ending in zero extends the state by those writes. */
  lemma BlockValuesStep(keys: map<int, real>, value: real, ws: seq<KeyWrite>, more: seq<KeyWrite>,
                        keys0: map<int, real>, value0: real)
    requires BlockValues(keys, value, ws, keys0, value0)
    requires more != []
    ensures BlockValues(ApplyWrites(keys, more), 0.0, ws + more, keys0, value0)
  {
    ApplyWritesConcat(keys0, ws, more);
    assert (ws + more)[0] == (if ws == [] then more[0] else ws[0]);
  }

  /** One object of the target loop: a missing block is recorded, a present one gets the blink pass. */
  method RunTarget(obj: SceneObject, p: BlinkParams, name: string, variation: nat -> int, draws0: nat,
                   ghost cands: set<ShapeKeyBlock>)
    returns (outcome: Outcome, draws: nat)
    requires ValidParams(p)
    requires name in obj.shapeKeyBlocks ==> obj.shapeKeyBlocks[name] in cands
    modifies cands
    ensures [outcome] == Plan(p, name, [obj], variation, draws0)
    ensures draws == draws0 + (if outcome.Keyed? && p.randomness != 0 then outcome.blinks else 0)
    ensures outcome.Keyed? ==> outcome.writes != []
    ensures forall b :: b in cands && !(outcome.Keyed? && outcome.block == b) ==>
      b.keys == old(b.keys) && b.value == old(b.value)
    ensures forall b :: b in cands && outcome.Keyed? && outcome.block == b ==>
      && b.keys == ApplyWrites(old(b.keys), outcome.writes)
      && b.value == 0.0
  {
    if name !in obj.shapeKeyBlocks {
      return Missing(obj.name), draws0;
    }
    var keyBlock := obj.shapeKeyBlocks[name];
    var blinkCount;
    blinkCount, draws := BlinkObject(keyBlock, p, variation, draws0);
    outcome := Keyed(keyBlock, blinkCount, ObjectWrites(p, variation, draws0));
  }

  /** One more outcome adds at most one processed object and at most one missing name. */
  lemma OutcomeCountsSnoc(done: seq<Outcome>, o: Outcome)
    ensures Processed(done + [o]) == Processed(done) + (if o.Keyed? && o.blinks > 0 then 1 else 0)
    ensures MissingNames(done + [o]) == MissingNames(done) + (if o.Missing? then [o.objectName] else [])
  {
    assert (done + [o])[..|done|] == done;
  }

  /** One more outcome appends its writes to the block it keyed. */
  lemma BlockWritesSnoc(done: seq<Outcome>, o: Outcome, b: ShapeKeyBlock)
    ensures BlockWrites(done + [o], b)
         == BlockWrites(done, b) + (if o.Keyed? && o.block == b then o.writes else [])
  {
    assert (done + [o])[..|done|] == done;
  }

  /** The plan still to run loses its first outcome to the outcomes done. */
  lemma PlanStep(p: BlinkParams, name: string, targets: seq<SceneObject>, i: nat, variation: nat -> int,
                 draws: nat, draws': nat, done: seq<Outcome>, plan: seq<Outcome>, o: Outcome)
    requires ValidParams(p) && i < |targets|
    requires plan == done + Plan(p, name, targets[i..], variation, draws)
    requires [o] == Plan(p, name, [targets[i]], variation, draws)
    requires draws' == draws + (if o.Keyed? && p.randomness != 0 then o.blinks else 0)
    ensures plan == (done + [o]) + Plan(p, name, targets[i + 1..], variation, draws')
  {
    var t := targets[i];
    assert targets[i..][0] == t && targets[i..][1..] == targets[i + 1..];
    assert [t][1..] == [];
    var one := Plan(p, name, [t], variation, draws);
    if name !in t.shapeKeyBlocks {
      assert one == [Missing(t.name)];
    } else {
      var n := |Starts(p, p.start, variation, draws)|;
      assert one == [Keyed(t.shapeKeyBlocks[name], n, ObjectWrites(p, variation, draws))];
    }
    assert Plan(p, name, targets[i..], variation, draws) == [o] + Plan(p, name, targets[i + 1..], variation, draws');
  }

  /** The named block of every target that has one is among `cands`. */
  ghost predicate BlocksAmong(targets: seq<SceneObject>, name: string, cands: set<ShapeKeyBlock>)
  {
    forall j :: 0 <= j < |targets| && name in targets[j].shapeKeyBlocks ==> targets[j].shapeKeyBlocks[name] in cands
  }

  /** Every block of `cands` holds the writes `done` made to it, from `keys0` and `values0`. */
  ghost predicate BlocksSoFar(cands: set<ShapeKeyBlock>, done: seq<Outcome>,
                              keys0: map<ShapeKeyBlock, map<int, real>>, values0: map<ShapeKeyBlock, real>)
    reads cands
  {
    && cands <= keys0.Keys && cands <= values0.Keys
    && forall b :: b in cands ==> BlockState(b, done, keys0[b], values0[b])
  }

  /**
   * The target loop of `execute`: every target block ends keyed by the
   * writes of all the objects that share it, in order; `processed` and
   * `missing` are those of the plan.
   */
  method BlinkTargets(p: BlinkParams, shapeKeyName: string, targets: seq<SceneObject>, variation: nat -> int,
                      ghost cands: set<ShapeKeyBlock>)
    returns (processed: nat, missing: seq<string>)
    requires ValidParams(p)
    requires cands == TargetBlocks(targets, shapeKeyName)
    modifies cands
    ensures var plan := Plan(p, shapeKeyName, targets, variation, 0);
      && (forall b :: b in cands ==> BlockState(b, plan, old(b.keys), old(b.value)))
      && processed == Processed(plan)
      && missing == MissingNames(plan)
  {
    ghost var keys0 := map b | b in cands :: b.keys;
    ghost var values0 := map b | b in cands :: b.value;
    assert BlocksSoFar(cands, [], keys0, values0);
    assert BlocksAmong(targets, shapeKeyName, cands);
    processed, missing := TargetLoop(p, shapeKeyName, targets, variation, cands, keys0, values0);
  }

  /** The `for` loop itself, against the blocks' state before it (`keys0`, `values0`). */
  method TargetLoop(p: BlinkParams, shapeKeyName: string, targets: seq<SceneObject>, variation: nat -> int,
                    ghost cands: set<ShapeKeyBlock>,
                    ghost keys0: map<ShapeKeyBlock, map<int, real>>, ghost values0: map<ShapeKeyBlock, real>)
    returns (processed: nat, missing: seq<string>)
    requires ValidParams(p)
    requires BlocksAmong(targets, shapeKeyName, cands)
    requires BlocksSoFar(cands, [], keys0, values0)
    modifies cands
    ensures var plan := Plan(p, shapeKeyName, targets, variation, 0);
      && BlocksSoFar(cands, plan, keys0, values0)
      && processed == Processed(plan)
      && missing == MissingNames(plan)
  {
    ghost var plan := Plan(p, shapeKeyName, targets, variation, 0);
    processed := 0;
    missing := [];
    var draws: nat := 0;
    var i := 0;
    ghost var done: seq<Outcome> := [];
    while i < |targets|
      invariant 0 <= i <= |targets| && |done| == i
      invariant plan == done + Plan(p, shapeKeyName, targets[i..], variation, draws)
      invariant BlocksSoFar(cands, done, keys0, values0)
      invariant processed == Processed(done)
      invariant missing == MissingNames(done)
    {
      var obj := targets[i];
      ghost var draws0 := draws;
      var outcome;
      outcome, draws := TargetStep(obj, p, shapeKeyName, variation, draws, cands, done, keys0, values0);
      PlanStep(p, shapeKeyName, targets, i, variation, draws0, draws, done, plan, outcome);
      if outcome.Missing? {
        missing := missing + [obj.name];
      } else if outcome.blinks > 0 {
        processed := processed + 1;
      }
      OutcomeCountsSnoc(done, outcome);
      done := done + [outcome];
      i := i + 1;
    }
    assert targets[i..] == [];
    assert plan == done;
  }

  /** One pass of the loop: the object's outcome is appended to `done` and its writes to its block. */
  method TargetStep(obj: SceneObject, p: BlinkParams, name: string, variation: nat -> int, draws0: nat,
                    ghost cands: set<ShapeKeyBlock>, ghost done: seq<Outcome>,
                    ghost keys0: map<ShapeKeyBlock, map<int, real>>, ghost values0: map<ShapeKeyBlock, real>)
    returns (outcome: Outcome, draws: nat)
    requires ValidParams(p)
    requires name in obj.shapeKeyBlocks ==> obj.shapeKeyBlocks[name] in cands
    requires BlocksSoFar(cands, done, keys0, values0)
    modifies cands
    ensures [outcome] == Plan(p, name, [obj], variation, draws0)
    ensures draws == draws0 + (if outcome.Keyed? && p.randomness != 0 then outcome.blinks else 0)
    ensures BlocksSoFar(cands, done + [outcome], keys0, values0)
  {
    outcome, draws := RunTarget(obj, p, name, variation, draws0, cands);
    forall b | b in cands ensures BlockState(b, done + [outcome], keys0[b], values0[b]) {
      var ws := BlockWrites(done, b);
      assert BlockValues(old(b.keys), old(b.value), ws, keys0[b], values0[b]);
      BlockWritesSnoc(done, outcome, b);
      if outcome.Keyed? && outcome.block == b {
        BlockValuesStep(old(b.keys), old(b.value), ws, outcome.writes, keys0[b], values0[b]);
      } else {
        assert ws + [] == ws;
      }
    }
  }

  /**
   * `ANIMATIONQOL_OT_generate_auto_blinks.execute`. No target objects
   * cancels first, then a blank shape-key name; neither changes anything.
   * Otherwise every target block ends keyed by the writes of all the
   * objects that share it, in order, and a keyed block's value is zero;
   * `processed` and `missing` are those of the plan, and nothing processed
   * cancels.
   */
  method Execute(ctx: BlinkContext, settings: BlinkSettings, variation: nat -> int)
    returns (status: Status, processed: nat, missing: seq<string>)
    requires forall c :: c in TargetBlocks(TargetObjects(ctx, settings.useSelectedObjects), Strip(settings.shapeKeyName)) ==> allocated(c)
    modifies TargetBlocks(TargetObjects(ctx, settings.useSelectedObjects), Strip(settings.shapeKeyName))
    ensures var targets := TargetObjects(ctx, settings.useSelectedObjects);
      var name := Strip(settings.shapeKeyName);
      targets == [] || name == [] ==>
        && status == Cancelled && processed == 0 && missing == []
        && forall b :: b in TargetBlocks(targets, name) ==> b.keys == old(b.keys) && b.value == old(b.value)
    ensures var targets := TargetObjects(ctx, settings.useSelectedObjects);
      var name := Strip(settings.shapeKeyName);
      var plan := Plan(Normalize(settings), name, targets, variation, 0);
      targets != [] && name != [] ==>
        && (forall b :: b in TargetBlocks(targets, name) ==>
              BlockState(b, plan, old(b.keys), old(b.value)))
        && processed == Processed(plan)
        && missing == MissingNames(plan)
        && status == (if processed == 0 then Cancelled else Finished)
  {
    var p := Normalize(settings);
    var targets := WithShapeKeys(if settings.useSelectedObjects then ctx.selectedObjects else ctx.sceneObjects);
    ghost var cands := TargetBlocks(targets, Strip(settings.shapeKeyName));
    if targets == [] {
      return Cancelled, 0, [];
    }
    var shapeKeyName := Strip(settings.shapeKeyName);
    if shapeKeyName == [] {
      return Cancelled, 0, [];
    }
    processed, missing := BlinkTargets(p, shapeKeyName, targets, variation, cands);
    status := if processed == 0 then Cancelled else Finished;
  }
}