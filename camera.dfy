/**
 * `utils/camera.py`: the sensor-fit decision, render resolution from a
 * reference image, the tagged background-image slot, the crop factor and
 * the domain checks of the field-of-view conversions.
 */
module Camera {
  import opened Common
  import opened Render

  /** An image datablock: its name and pixel size. */
  datatype Image = Image(name: string, width: int, height: int)

  /** `Camera.sensor_fit`. */
  datatype SensorFit = AutoFit | Horizontal | Vertical

  datatype DisplayDepth = Back | Front
  datatype FrameMethod = Stretch | Fit | Crop

  /** One entry of `camera_data.background_images`. */
  datatype BackgroundSlot = BackgroundSlot(image: Option<Image>, alpha: real, depth: DisplayDepth, frameMethod: FrameMethod)

  /** The camera datablock fields the reference tools write. */
  class CameraData {
    var sensorWidth: real
    var sensorHeight: real
    var sensorFit: SensorFit
    var lens: real
    var showBackgroundImages: bool
    var backgroundImages: seq<BackgroundSlot>
  }

  /** The default `tag` of `ensure_camera_background_image`. */
  const DefaultTag: string := "[YABQOLA RefCam]"

  // ---------------------------------------------------------------------------
  // pick_sensor_fit
  // ---------------------------------------------------------------------------

  /** `pick_sensor_fit`: HORIZONTAL unless a valid image is narrower than the sensor. */
  function PickSensorFit(image: Option<Image>, sensorWidth: real, sensorHeight: real): SensorFit
  {
    if image.None? then Horizontal
    else if image.value.width <= 0 || image.value.height <= 0 then Horizontal
    else
      var imageAspect := image.value.width as real / image.value.height as real;
      var sensorAspect := if sensorHeight != 0.0 then sensorWidth / sensorHeight else 1.0;
      if imageAspect >= sensorAspect then Horizontal else Vertical
  }

  lemma DivCompare(a: real, b: real, c: real, d: real)
    requires b > 0.0 && d > 0.0
    ensures a / b >= c / d <==> a * d >= c * b
  {
    var x, y := a / b, c / d;
    assert a == x * b && c == y * d;
    assert a * d - c * b == (x - y) * (b * d);
    assert b * d > 0.0;
    if x >= y {
      assert (x - y) * (b * d) >= 0.0;
    } else {
      assert (y - x) * (b * d) > 0.0;
    }
  }

  /**
   * The fit never comes out AUTO; without a usable image it is HORIZONTAL;
   * with one and a sensor of non-zero height it is HORIZONTAL exactly when
   * the image is at least as wide, relative to its height, as the sensor.
   */
  lemma PickSensorFitMeaning(image: Option<Image>, sensorWidth: real, sensorHeight: real)
    ensures PickSensorFit(image, sensorWidth, sensorHeight) != AutoFit
    ensures image.None? || image.value.width <= 0 || image.value.height <= 0 ==>
      PickSensorFit(image, sensorWidth, sensorHeight) == Horizontal
    ensures image.Some? && image.value.width > 0 && image.value.height > 0 && sensorHeight > 0.0 ==>
      (PickSensorFit(image, sensorWidth, sensorHeight) == Horizontal <==>
       image.value.width as real * sensorHeight >= sensorWidth * image.value.height as real)
    ensures image.Some? && image.value.width > 0 && image.value.height > 0 && sensorHeight == 0.0 ==>
      (PickSensorFit(image, sensorWidth, sensorHeight) == Horizontal <==> image.value.width >= image.value.height)
  {
    if image.Some? && image.value.width > 0 && image.value.height > 0 {
      var w, h := image.value.width as real, image.value.height as real;
      if sensorHeight > 0.0 {
        DivCompare(w, h, sensorWidth, sensorHeight);
      } else if sensorHeight == 0.0 {
        DivCompare(w, h, 1.0, 1.0);
      }
    }
  }

  // ---------------------------------------------------------------------------
  // set_render_resolution_from_image
  // ---------------------------------------------------------------------------

  /** The image can drive the render size: present with a positive size. */
  predicate UsableImage(image: Option<Image>)
  {
    image.Some? && image.value.width > 0 && image.value.height > 0
  }

  /** `set_render_resolution_from_image`: nothing for a missing or empty image; otherwise the image size at 100 % and square pixels. */
  method SetRenderResolutionFromImage(render: RenderSettings, image: Option<Image>)
    modifies render
    ensures !UsableImage(image) ==> unchanged(render)
    ensures UsableImage(image) ==>
      && render.resolutionX == image.value.width && render.resolutionY == image.value.height
      && render.resolutionPercentage == 100
      && render.pixelAspectX == 1.0 && render.pixelAspectY == 1.0
      && render.Output() == old(render.Output()).(resolutionPercentage := 100)
      && render.useSimplify == old(render.useSimplify)
  {
    if image.None? {
      return;
    }
    var width, height := image.value.width, image.value.height;
    if width <= 0 || height <= 0 {
      return;
    }
    render.resolutionX := width;
    render.resolutionY := height;
    render.resolutionPercentage := 100;
    render.pixelAspectX := 1.0;
    render.pixelAspectY := 1.0;
  }

  // ---------------------------------------------------------------------------
  // ensure_camera_background_image
  // ---------------------------------------------------------------------------

  /** `slot.image and slot.image.name.endswith(tag)`. */
  predicate IsTagged(slot: BackgroundSlot, tag: string)
  {
    slot.image.Some? && EndsWith(slot.image.value.name, tag)
  }

  /** The name the displayed image gets: unchanged when already tagged, else the tag appended after a space. */
  function TaggedName(name: string, tag: string): string
  {
    if EndsWith(name, tag) then name else name + " " + tag
  }

  lemma EndsWithAppend(s: string, suffix: string)
    ensures EndsWith(s + suffix, suffix)
  {
    assert (s + suffix)[|s + suffix| - |suffix|..] == suffix;
  }

  /** The tagged name always ends with the tag, and tagging twice changes nothing more. */
  lemma TaggedNameProperties(name: string, tag: string)
    ensures EndsWith(TaggedName(name, tag), tag)
    ensures TaggedName(TaggedName(name, tag), tag) == TaggedName(name, tag)
    ensures EndsWith(name, tag) ==> TaggedName(name, tag) == name
  {
    if !EndsWith(name, tag) {
      assert name + " " + tag == (name + " ") + tag;
      EndsWithAppend(name + " ", tag);
    }
  }

  /** The tag test as a value, so that the removal lemmas below need not look inside it. */
  function TagTest(tag: string): BackgroundSlot -> bool
  {
    slot => IsTagged(slot, tag)
  }

  /** `slots_to_remove`: the indices of the slots `tagged` flags, ascending. */
  function TaggedIndices(slots: seq<BackgroundSlot>, tagged: BackgroundSlot -> bool): seq<nat>
  {
    if slots == [] then []
    else
      var n := |slots| - 1;
      TaggedIndices(slots[..n], tagged) + (if tagged(slots[n]) then [n] else [])
  }

  /** `idx` ascends strictly and names exactly the flagged slots. */
  predicate IndexFacts(slots: seq<BackgroundSlot>, tagged: BackgroundSlot -> bool, idx: seq<nat>)
  {
    && (forall a, b :: 0 <= a < b < |idx| ==> idx[a] < idx[b])
    && (forall a :: 0 <= a < |idx| ==> idx[a] < |slots| && tagged(slots[idx[a]]))
    && (forall i :: 0 <= i < |slots| && tagged(slots[i]) ==> i in idx)
  }

  lemma {:induction false} TaggedIndicesFlagged(slots: seq<BackgroundSlot>, tagged: BackgroundSlot -> bool)
    ensures forall a :: 0 <= a < |TaggedIndices(slots, tagged)| ==>
      TaggedIndices(slots, tagged)[a] < |slots| && tagged(slots[TaggedIndices(slots, tagged)[a]])
  {
    if slots != [] {
      var n := |slots| - 1;
      TaggedIndicesFlagged(slots[..n], tagged);
      var prev := TaggedIndices(slots[..n], tagged);
      forall a | 0 <= a < |prev| ensures prev[a] < n && tagged(slots[prev[a]]) {
        assert slots[..n][prev[a]] == slots[prev[a]];
      }
    }
  }

  lemma {:induction false} TaggedIndicesAscend(slots: seq<BackgroundSlot>, tagged: BackgroundSlot -> bool)
    ensures forall a, b :: 0 <= a < b < |TaggedIndices(slots, tagged)| ==>
      TaggedIndices(slots, tagged)[a] < TaggedIndices(slots, tagged)[b]
  {
    if slots != [] {
      var n := |slots| - 1;
      TaggedIndicesAscend(slots[..n], tagged);
      TaggedIndicesFlagged(slots[..n], tagged);
    }
  }

  lemma {:induction false} TaggedIndicesComplete(slots: seq<BackgroundSlot>, tagged: BackgroundSlot -> bool)
    ensures forall i :: 0 <= i < |slots| && tagged(slots[i]) ==> i in TaggedIndices(slots, tagged)
  {
    if slots != [] {
      var n := |slots| - 1;
      TaggedIndicesComplete(slots[..n], tagged);
      var prev := TaggedIndices(slots[..n], tagged);
      forall i | 0 <= i < n && tagged(slots[i]) ensures i in prev {
        assert slots[..n][i] == slots[i];
      }
    }
  }

  lemma TaggedIndicesFacts(slots: seq<BackgroundSlot>, tagged: BackgroundSlot -> bool)
    ensures IndexFacts(slots, tagged, TaggedIndices(slots, tagged))
  {
    TaggedIndicesFlagged(slots, tagged);
    TaggedIndicesAscend(slots, tagged);
    TaggedIndicesComplete(slots, tagged);
  }

  /** Between two consecutive flagged indices (or before the first, or after the last) no slot is flagged. */
  lemma Gap(slots: seq<BackgroundSlot>, tagged: BackgroundSlot -> bool, idx: seq<nat>, k: nat, i: int)
    requires IndexFacts(slots, tagged, idx)
    requires k <= |idx|
    requires (if k == 0 then -1 else idx[k - 1]) < i < (if k < |idx| then idx[k] else |slots|)
    ensures !tagged(slots[i])
  {
  }

  /** The slots `tagged` does not flag, in order. */
  function Untagged(slots: seq<BackgroundSlot>, tagged: BackgroundSlot -> bool): (r: seq<BackgroundSlot>)
    ensures forall k :: 0 <= k < |r| ==> !tagged(r[k])
  {
    if slots == [] then []
    else
      var n := |slots| - 1;
      Untagged(slots[..n], tagged) + (if tagged(slots[n]) then [] else [slots[n]])
  }

  lemma {:induction false} UntaggedAppend(a: seq<BackgroundSlot>, b: seq<BackgroundSlot>, tagged: BackgroundSlot -> bool)
    ensures Untagged(a + b, tagged) == Untagged(a, tagged) + Untagged(b, tagged)
  {
    if b == [] {
      assert a + b == a;
    } else {
      var n := |b| - 1;
      assert (a + b)[..|a + b| - 1] == a + b[..n];
      UntaggedAppend(a, b[..n], tagged);
    }
  }

  lemma {:induction false} UntaggedOfUntagged(s: seq<BackgroundSlot>, tagged: BackgroundSlot -> bool)
    requires forall k :: 0 <= k < |s| ==> !tagged(s[k])
    ensures Untagged(s, tagged) == s
  {
    if s != [] {
      UntaggedOfUntagged(s[..|s| - 1], tagged);
    }
  }

  /** The slots once the flagged ones from index `e` on are removed. */
  function KeptFrom(slots: seq<BackgroundSlot>, tagged: BackgroundSlot -> bool, e: nat): seq<BackgroundSlot>
    requires e <= |slots|
  {
    slots[..e] + Untagged(slots[e..], tagged)
  }

  /** A flagged slot followed by unflagged ones leaves just the unflagged ones. */
  lemma DropOne(x: BackgroundSlot, mid: seq<BackgroundSlot>, tagged: BackgroundSlot -> bool)
    requires tagged(x)
    requires forall k :: 0 <= k < |mid| ==> !tagged(mid[k])
    ensures Untagged([x] + mid, tagged) == mid
  {
    UntaggedOfUntagged(mid, tagged);
    UntaggedAppend([x], mid, tagged);
    assert [x][..0] == [];
  }

  lemma SplitAt<T>(s: seq<T>, e: nat)
    requires e <= |s|
    ensures s == s[..e] + s[e..]
  {
  }

  lemma SplitHead<T>(s: seq<T>, m: nat)
    requires 0 < m <= |s|
    ensures s == ([s[0]] + s[1..m]) + s[m..]
  {
  }

  /** Dropping the flagged slots of `s`, whose first slot is flagged and next `m - 1` are not. */
  lemma DropTaggedHead(s: seq<BackgroundSlot>, tagged: BackgroundSlot -> bool, m: nat)
    requires 0 < m <= |s| && tagged(s[0])
    requires forall i :: 0 < i < m ==> !tagged(s[i])
    ensures Untagged(s, tagged) == s[1..m] + Untagged(s[m..], tagged)
  {
    var mid := s[1..m];
    forall i | 0 <= i < |mid| ensures !tagged(mid[i]) {
      assert mid[i] == s[i + 1];
    }
    DropOne(s[0], mid, tagged);
    SplitHead(s, m);
    UntaggedAppend([s[0]] + mid, s[m..], tagged);
  }

  lemma SliceAround<T>(slots: seq<T>, rest: seq<T>, j: nat, e: nat)
    requires j < e <= |slots|
    ensures slots[j..][1..e - j] == slots[j + 1..e] && slots[j..][e - j..] == slots[e..]
    ensures var cur := slots[..e] + rest; cur[..j] == slots[..j] && cur[j + 1..] == slots[j + 1..e] + rest
  {
    var cur := slots[..e] + rest;
    assert cur[..j] == slots[..j];
    assert cur[j + 1..] == slots[j + 1..e] + rest;
  }

  /** Removing the flagged slot `j` from the slots kept from `e` on, with none flagged in between, keeps from `j` on. */
  lemma KeptStep(slots: seq<BackgroundSlot>, tagged: BackgroundSlot -> bool, j: nat, e: nat)
    requires j < e <= |slots| && tagged(slots[j])
    requires forall i :: j < i < e ==> !tagged(slots[i])
    ensures var cur := KeptFrom(slots, tagged, e);
      cur[..j] + cur[j + 1..] == KeptFrom(slots, tagged, j)
  {
    var tail := slots[j..];
    var rest := Untagged(slots[e..], tagged);
    forall i | 0 < i < e - j ensures !tagged(tail[i]) {
      assert tail[i] == slots[j + i];
    }
    DropTaggedHead(tail, tagged, e - j);
    SliceAround(slots, rest, j, e);
  }

  /** Removing the flagged slot at `idx[k - 1]` extends the removal down to that index. */
  lemma RemoveStep(slots: seq<BackgroundSlot>, tagged: BackgroundSlot -> bool, idx: seq<nat>, k: nat, e: nat)
    requires IndexFacts(slots, tagged, idx)
    requires 0 < k <= |idx|
    requires e == (if k < |idx| then idx[k] else |slots|)
    ensures e <= |slots| && idx[k - 1] < e
    ensures var cur := KeptFrom(slots, tagged, e); var j := idx[k - 1];
      cur[..j] + cur[j + 1..] == KeptFrom(slots, tagged, j)
  {
    var j := idx[k - 1];
    assert j < e by {
      if k < |idx| {
        assert idx[k - 1] < idx[k];
      }
    }
    forall i | j < i < e ensures !tagged(slots[i]) {
      Gap(slots, tagged, idx, k, i);
    }
    KeptStep(slots, tagged, j, e);
  }

  /** With no flagged slot before `e`, keeping the slots before `e` and the unflagged rest is the whole filter. */
  lemma KeptFromUnflaggedPrefix(slots: seq<BackgroundSlot>, tagged: BackgroundSlot -> bool, e: nat)
    requires e <= |slots|
    requires forall i :: 0 <= i < e ==> !tagged(slots[i])
    ensures KeptFrom(slots, tagged, e) == Untagged(slots, tagged)
  {
    var pre := slots[..e];
    forall m | 0 <= m < |pre| ensures !tagged(pre[m]) {
      assert pre[m] == slots[m];
    }
    UntaggedOfUntagged(pre, tagged);
    SplitAt(slots, e);
    UntaggedAppend(pre, slots[e..], tagged);
  }

  /** The removal loop ends with every flagged slot gone and the others in order. */
  lemma RemoveDone(slots: seq<BackgroundSlot>, tagged: BackgroundSlot -> bool, idx: seq<nat>, e: nat)
    requires IndexFacts(slots, tagged, idx)
    requires e == (if 0 < |idx| then idx[0] else |slots|)
    ensures e <= |slots| && KeptFrom(slots, tagged, e) == Untagged(slots, tagged)
  {
    forall i | 0 <= i < e ensures !tagged(slots[i]) {
      Gap(slots, tagged, idx, 0, i);
    }
    KeptFromUnflaggedPrefix(slots, tagged, e);
  }

  /** The reverse loop `camera_data.background_images.remove(...)` over `slots_to_remove`. */
  method RemoveTaggedSlots(camera: CameraData, tag: string)
    modifies camera
    ensures camera.backgroundImages == Untagged(old(camera.backgroundImages), TagTest(tag))
    ensures camera.sensorWidth == old(camera.sensorWidth) && camera.sensorHeight == old(camera.sensorHeight)
    ensures camera.sensorFit == old(camera.sensorFit) && camera.lens == old(camera.lens)
    ensures camera.showBackgroundImages == old(camera.showBackgroundImages)
  {
    ghost var slots := camera.backgroundImages;
    var tagged := TagTest(tag);
    var idx := TaggedIndices(camera.backgroundImages, tagged);
    TaggedIndicesFacts(slots, tagged);
    var k := |idx|;
    assert slots[|slots|..] == [];
    while k > 0
      invariant 0 <= k <= |idx|
      invariant var e := if k < |idx| then idx[k] else |slots|;
        e <= |slots| && camera.backgroundImages == KeptFrom(slots, tagged, e)
      invariant camera.sensorWidth == old(camera.sensorWidth) && camera.sensorHeight == old(camera.sensorHeight)
      invariant camera.sensorFit == old(camera.sensorFit) && camera.lens == old(camera.lens)
      invariant camera.showBackgroundImages == old(camera.showBackgroundImages)
    {
      var j := idx[k - 1];
      RemoveStep(slots, tagged, idx, k, if k < |idx| then idx[k] else |slots|);
      camera.backgroundImages := camera.backgroundImages[..j] + camera.backgroundImages[j + 1..];
      k := k - 1;
    }
    RemoveDone(slots, tagged, idx, if 0 < |idx| then idx[0] else |slots|);
  }

  /** The image a new slot shows: the image itself when tagged, else the tagged library image, else a renamed copy. */
  function DisplayImage(image: Image, tag: string, library: map<string, Image>): Image
  {
    var tagged := TaggedName(image.name, tag);
    if EndsWith(image.name, tag) then image
    else if tagged in library then library[tagged]
    else image.(name := tagged)
  }

  /** `bpy.data.images` is keyed by name. */
  predicate KeyedByName(library: map<string, Image>)
  {
    forall n :: n in library ==> library[n].name == n
  }

  /** The new slot: the display image, alpha 0.7, drawn behind, cropped. */
  function NewSlot(image: Image, tag: string, library: map<string, Image>): BackgroundSlot
  {
    BackgroundSlot(Some(DisplayImage(image, tag, library)), 0.7, Back, Crop)
  }

  /** The new slot's image carries the tagged name, so the slot is tagged. */
  lemma NewSlotTagged(image: Image, tag: string, library: map<string, Image>)
    requires KeyedByName(library)
    ensures DisplayImage(image, tag, library).name == TaggedName(image.name, tag)
    ensures IsTagged(NewSlot(image, tag, library), tag)
  {
    TaggedNameProperties(image.name, tag);
  }

  /** The number of slots carrying `tag`. */
  function TaggedCount(slots: seq<BackgroundSlot>, tag: string): nat
  {
    |TaggedIndices(slots, TagTest(tag))|
  }

  lemma {:induction false} NoTaggedIndices(s: seq<BackgroundSlot>, tagged: BackgroundSlot -> bool)
    requires forall k :: 0 <= k < |s| ==> !tagged(s[k])
    ensures TaggedIndices(s, tagged) == []
  {
    if s != [] {
      NoTaggedIndices(s[..|s| - 1], tagged);
    }
  }

  /** One flagged slot appended to unflagged ones is the only flagged index. */
  lemma OneFlagged(u: seq<BackgroundSlot>, x: BackgroundSlot, tagged: BackgroundSlot -> bool)
    requires forall k :: 0 <= k < |u| ==> !tagged(u[k])
    requires tagged(x)
    ensures TaggedIndices(u + [x], tagged) == [|u|]
  {
    assert (u + [x])[..|u|] == u;
    NoTaggedIndices(u, tagged);
  }

  /** After the call exactly one slot is tagged (the new last one), however many there were before. */
  lemma OneTaggedSlot(slots: seq<BackgroundSlot>, image: Image, tag: string, library: map<string, Image>)
    requires KeyedByName(library)
    ensures var after := Untagged(slots, TagTest(tag)) + [NewSlot(image, tag, library)];
      TaggedCount(after, tag) == 1 && IsTagged(after[|after| - 1], tag)
  {
    NewSlotTagged(image, tag, library);
    OneFlagged(Untagged(slots, TagTest(tag)), NewSlot(image, tag, library), TagTest(tag));
  }

  /**
   * `ensure_camera_background_image`: with no image nothing changes;
   * otherwise the tagged slots are removed, background images are shown and
   * one new slot is appended; a renamed copy enters the image library when
   * no tagged image exists there yet.
   */
  method EnsureCameraBackgroundImage(camera: CameraData, image: Option<Image>, tag: string, library: map<string, Image>)
    returns (slot: Option<BackgroundSlot>, newLibrary: map<string, Image>)
    requires KeyedByName(library)
    modifies camera
    ensures image.None? ==> unchanged(camera) && slot.None? && newLibrary == library
    ensures image.Some? ==>
      && slot == Some(NewSlot(image.value, tag, library))
      && camera.backgroundImages == Untagged(old(camera.backgroundImages), TagTest(tag)) + [slot.value]
      && camera.showBackgroundImages
      && camera.sensorWidth == old(camera.sensorWidth) && camera.sensorHeight == old(camera.sensorHeight)
      && camera.sensorFit == old(camera.sensorFit) && camera.lens == old(camera.lens)
      && newLibrary == (if EndsWith(image.value.name, tag) || TaggedName(image.value.name, tag) in library then library
                        else library[TaggedName(image.value.name, tag) := DisplayImage(image.value, tag, library)])
      && KeyedByName(newLibrary)
  {
    newLibrary := library;
    if image.None? {
      return None, library;
    }
    RemoveTaggedSlots(camera, tag);
    camera.showBackgroundImages := true;
    var img := image.value;
    var displayImage := img;
    var taggedName := img.name + " " + tag;
    if EndsWith(img.name, tag) {
      taggedName := img.name;
    } else if taggedName in library {
      displayImage := library[taggedName];
    } else {
      displayImage := img.(name := taggedName);
      newLibrary := library[taggedName := displayImage];
    }
    var s := BackgroundSlot(Some(displayImage), 0.7, Back, Crop);
    camera.backgroundImages := camera.backgroundImages + [s];
    slot := Some(s);
  }

  // ---------------------------------------------------------------------------
  // crop_factor_from_sensor / lens_from_*_fov
  // ---------------------------------------------------------------------------

  /** `DIAGONAL_35MM`, the double `math.hypot(36.0, 24.0)` written out. */
  const Diagonal35: real := 43.266615305567875

  /** `crop_factor_from_sensor`, given the host's `math.hypot` of the sensor sides. */
  function CropFactor(diagonal: real): (crop: real)
    ensures crop > 0.0
    ensures diagonal <= 0.0 ==> crop == 1.0
    ensures diagonal > 0.0 ==> crop * diagonal == Diagonal35
  {
    if diagonal <= 0.0 then 1.0 else Diagonal35 / diagonal
  }

  /** A lens length, or the `ValueError` message. */
  datatype LensResult = LensOk(mm: real) | LensError(message: string)

  /** The field of view lies strictly between 0 and 180 degrees. */
  predicate FovInDomain(fovDegrees: real)
  {
    0.0 < fovDegrees < 180.0
  }

  /**
   * `lens_from_horizontal_fov` / `lens_from_vertical_fov`: an error outside
   * (0, 180) degrees, else `sensor / (2 tan(fov / 2))`, with the tangent of
   * the half angle supplied by the caller.
   */
  function LensFromFov(sensor: real, fovDegrees: real, tanHalf: real, horizontal: bool): (r: LensResult)
    requires FovInDomain(fovDegrees) ==> tanHalf > 0.0
    ensures r.LensOk? <==> FovInDomain(fovDegrees)
    ensures r.LensOk? ==> r.mm * (2.0 * tanHalf) == sensor
    ensures r.LensOk? && sensor > 0.0 ==> r.mm > 0.0
  {
    if fovDegrees <= 0.0 || fovDegrees >= 180.0 then
      LensError(if horizontal then "Horizontal FOV must be within (0, 180) degrees"
                else "Vertical FOV must be within (0, 180) degrees")
    else
      LensOk(sensor / (2.0 * tanHalf))
  }
}
