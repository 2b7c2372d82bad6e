/**
 * `operators/reference_camera.py`: match the active camera's sensor, fit and
 * focal length (and the render size and a background slot) to a reference
 * image.
 */
module ReferenceCamera {
  import opened Common
  import opened Render
  import opened Camera

  /** `refcam_sensor_preset`: the keys of `SENSOR_PRESETS`, plus CUSTOM. */
  datatype SensorPreset = FullFrame | ApsC | MicroFourThirds | Super35 | OneInch | Iphone12Main | Custom

  /** A sensor's width and height in millimetres. */
  datatype SensorSize = SensorSize(width: real, height: real)

  /** `SENSOR_PRESETS` (utils/camera.py): every preset is a landscape sensor of positive size. */
  function PresetSensor(p: SensorPreset): (s: SensorSize)
    requires p != Custom
    ensures s.width > s.height > 0.0
  {
    match p
    case FullFrame => SensorSize(36.0, 24.0)
    case ApsC => SensorSize(23.6, 15.7)
    case MicroFourThirds => SensorSize(17.3, 13.0)
    case Super35 => SensorSize(24.89, 18.66)
    case OneInch => SensorSize(13.2, 8.8)
    case Iphone12Main => SensorSize(5.6, 4.2)
  }

  /** The read-only `refcam_*` fields of the scene settings. */
  datatype RefcamOptions = RefcamOptions(
    sensorPreset: SensorPreset,
    customWidth: real,
    customHeight: real,
    overrideFit: bool,
    sensorFit: SensorFit,
    useFovH: bool,
    fovHDegrees: real,
    useFovV: bool,
    fovVDegrees: real,
    useEquiv35: bool,
    equiv35Mm: real,
    directLensMm: real,
    addBackground: bool)

  /** The `refcam_*` scene settings: the cached image is the one field the operator writes. */
  class RefcamSettings {
    var image: Option<Image>
    const imagePath: string
    const options: RefcamOptions

    constructor (image: Option<Image>, imagePath: string, options: RefcamOptions)
      ensures this.image == image && this.imagePath == imagePath && this.options == options
    {
      this.image := image;
      this.imagePath := imagePath;
      this.options := options;
    }
  }

  /**
   * The trigonometry the host supplies: `tan(radians(d) * 0.5)` and
   * `math.hypot`. The only fact used is that the half-angle tangent is
   * positive for an angle strictly between 0 and 180 degrees.
   */
  datatype HostMath = HostMath(tanHalfDegrees: real -> real, hypot: (real, real) -> real)

  ghost predicate SoundTangent(m: HostMath)
  {
    forall d :: FovInDomain(d) ==> m.tanHalfDegrees(d) > 0.0
  }

  // ---------------------------------------------------------------------------
  // Sensor dimensions
  // ---------------------------------------------------------------------------

  /** The sensor a run uses: the preset's, or the custom width and height. */
  function ChosenSensor(o: RefcamOptions): (s: SensorSize)
    ensures o.sensorPreset == Custom ==> s == SensorSize(o.customWidth, o.customHeight)
    ensures o.sensorPreset != Custom ==> s == PresetSensor(o.sensorPreset) && s.width > 0.0 && s.height > 0.0
  {
    if o.sensorPreset != Custom then PresetSensor(o.sensorPreset)
    else SensorSize(o.customWidth, o.customHeight)
  }

  /** Only a custom sensor can be rejected as non-positive. */
  lemma SensorRejectedOnlyWhenCustom(o: RefcamOptions)
    ensures (ChosenSensor(o).width <= 0.0 || ChosenSensor(o).height <= 0.0) <==>
      o.sensorPreset == Custom && (o.customWidth <= 0.0 || o.customHeight <= 0.0)
  {
  }

  // ---------------------------------------------------------------------------
  // _resolve_reference_image
  // ---------------------------------------------------------------------------

  /**
   * The image `_resolve_reference_image` returns: the linked image when one
   * is set; otherwise, with a non-empty path, the result of loading it
   * (`loaded`, `None` when the file is missing or fails to load); else none.
   */
  function ResolvedImage(cached: Option<Image>, path: string, loaded: Option<Image>): (r: Option<Image>)
    ensures cached.Some? ==> r == cached
    ensures cached.None? && path == [] ==> r.None?
    ensures cached.None? && path != [] ==> r == loaded
  {
    if cached.Some? then cached
    else if path != [] then loaded
    else None
  }

  /** Once an image is resolved and cached, resolving again gives it back whatever a load would return. */
  lemma ResolveIsCached(cached: Option<Image>, path: string, loaded: Option<Image>, later: Option<Image>)
    ensures var first := ResolvedImage(cached, path, loaded);
      first.Some? ==> ResolvedImage(first, path, later) == first
  {
  }

  /** `_resolve_reference_image`: a successful load is stored back into the settings. */
  method ResolveReferenceImage(settings: RefcamSettings, loaded: Option<Image>) returns (image: Option<Image>)
    modifies settings
    ensures image == ResolvedImage(old(settings.image), settings.imagePath, loaded)
    ensures settings.image == (if image.Some? then image else old(settings.image))
  {
    if settings.image.Some? {
      return settings.image;
    }
    if settings.imagePath != [] {
      if loaded.None? {
        return None;
      }
      settings.image := loaded;
      return loaded;
    }
    return None;
  }

  // ---------------------------------------------------------------------------
  // _compute_lens
  // ---------------------------------------------------------------------------

  /**
   * `_compute_lens`: horizontal FOV, else vertical FOV, else the 35 mm
   * equivalent divided by the crop factor, else the direct focal length.
   */
  function ComputeLens(o: RefcamOptions, sensor: SensorSize, m: HostMath): (r: LensResult)
    requires SoundTangent(m)
    ensures r.LensError? <==>
      (o.useFovH && !FovInDomain(o.fovHDegrees)) || (!o.useFovH && o.useFovV && !FovInDomain(o.fovVDegrees))
  {
    if o.useFovH then LensFromFov(sensor.width, o.fovHDegrees, m.tanHalfDegrees(o.fovHDegrees), true)
    else if o.useFovV then LensFromFov(sensor.height, o.fovVDegrees, m.tanHalfDegrees(o.fovVDegrees), false)
    else if o.useEquiv35 then
      var crop := CropFactor(m.hypot(sensor.width, sensor.height));
      if crop <= 0.0 then LensError("Invalid crop factor computed from sensor dimensions")
      else LensOk(o.equiv35Mm / crop)
    else LensOk(o.directLensMm)
  }

  /**
   * Each lens source in its turn: a selected FOV source gives the lens whose
   * field of view it is; the equivalent source never fails and gives the
   * focal length that, times the crop factor, is the 35 mm equivalent; with
   * no source selected the direct focal length is used.
   */
  lemma LensPriority(o: RefcamOptions, sensor: SensorSize, m: HostMath)
    requires SoundTangent(m)
    ensures var r := ComputeLens(o, sensor, m);
      && (o.useFovH && FovInDomain(o.fovHDegrees) ==>
            r.LensOk? && r.mm * (2.0 * m.tanHalfDegrees(o.fovHDegrees)) == sensor.width)
      && (!o.useFovH && o.useFovV && FovInDomain(o.fovVDegrees) ==>
            r.LensOk? && r.mm * (2.0 * m.tanHalfDegrees(o.fovVDegrees)) == sensor.height)
      && (!o.useFovH && !o.useFovV && o.useEquiv35 ==>
            r.LensOk? && r.mm * CropFactor(m.hypot(sensor.width, sensor.height)) == o.equiv35Mm)
      && (!o.useFovH && !o.useFovV && !o.useEquiv35 ==> r == LensOk(o.directLensMm))
  {
    if !o.useFovH && !o.useFovV && o.useEquiv35 {
      var crop := CropFactor(m.hypot(sensor.width, sensor.height));
      assert (o.equiv35Mm / crop) * crop == o.equiv35Mm;
    }
  }

  /** The focal length stored on the camera: never below 1 mm, otherwise the computed one. */
  function StoredLens(mm: real): (lens: real)
    ensures lens >= 1.0
    ensures mm >= 1.0 ==> lens == mm
    ensures mm < 1.0 ==> lens == 1.0
  {
    MaxReal(1.0, mm)
  }

  /** The fit written to the camera: the configured one when overridden, else the image-based choice. */
  function ChosenFit(o: RefcamOptions, image: Option<Image>, sensor: SensorSize): (fit: SensorFit)
    ensures o.overrideFit ==> fit == o.sensorFit
    ensures !o.overrideFit ==> fit == PickSensorFit(image, sensor.width, sensor.height) && fit != AutoFit
  {
    PickSensorFitMeaning(image, sensor.width, sensor.height);
    if o.overrideFit then o.sensorFit else PickSensorFit(image, sensor.width, sensor.height)
  }

  // ---------------------------------------------------------------------------
  // ANIMATIONQOL_OT_refcam_apply.execute
  // ---------------------------------------------------------------------------

  /**
   * `ANIMATIONQOL_OT_refcam_apply.execute` on the scene's camera datablock.
   * A non-positive sensor cancels before anything is written. Otherwise the
   * image is resolved (and cached), the sensor and fit are written, and a
   * lens error cancels with only those written; on success the lens, the
   * render size and, when asked for, the background slot follow.
   */
  method Apply(settings: RefcamSettings, loaded: Option<Image>, camera: CameraData, render: RenderSettings,
               library: map<string, Image>, m: HostMath)
    returns (status: Status, newLibrary: map<string, Image>)
    requires SoundTangent(m) && KeyedByName(library)
    modifies settings, camera, render
    ensures var sensor := ChosenSensor(settings.options);
      sensor.width <= 0.0 || sensor.height <= 0.0 ==>
        status == Cancelled && unchanged(settings, camera, render) && newLibrary == library
    ensures var o := settings.options; var sensor := ChosenSensor(o);
      var image := ResolvedImage(old(settings.image), settings.imagePath, loaded);
      var lens := ComputeLens(o, sensor, m);
      sensor.width > 0.0 && sensor.height > 0.0 ==>
        && settings.image == (if image.Some? then image else old(settings.image))
        && camera.sensorWidth == sensor.width && camera.sensorHeight == sensor.height
        && camera.sensorFit == ChosenFit(o, image, sensor)
        && (status == Cancelled <==> lens.LensError?)
        && (lens.LensError? ==>
              && camera.lens == old(camera.lens) && unchanged(render) && newLibrary == library
              && camera.backgroundImages == old(camera.backgroundImages)
              && camera.showBackgroundImages == old(camera.showBackgroundImages))
        && (lens.LensOk? ==>
              && camera.lens == StoredLens(lens.mm)
              && (UsableImage(image) ==>
                    render.resolutionX == image.value.width && render.resolutionY == image.value.height
                    && render.resolutionPercentage == 100
                    && render.pixelAspectX == 1.0 && render.pixelAspectY == 1.0)
              && (!UsableImage(image) ==> unchanged(render))
              && (o.addBackground && image.Some? ==>
                    && camera.backgroundImages == Untagged(old(camera.backgroundImages), TagTest(DefaultTag))
                                                 + [NewSlot(image.value, DefaultTag, library)]
                    && camera.showBackgroundImages
                    && KeyedByName(newLibrary))
              && (!o.addBackground || image.None? ==>
                    && camera.backgroundImages == old(camera.backgroundImages)
                    && camera.showBackgroundImages == old(camera.showBackgroundImages)
                    && newLibrary == library))
  {
    newLibrary := library;
    var o := settings.options;
    var sensor := ChosenSensor(o);
    if sensor.width <= 0.0 || sensor.height <= 0.0 {
      return Cancelled, library;
    }
    var image := ResolveReferenceImage(settings, loaded);
    camera.sensorWidth := sensor.width;
    camera.sensorHeight := sensor.height;
    var fit := if o.overrideFit then o.sensorFit else PickSensorFit(image, sensor.width, sensor.height);
    camera.sensorFit := fit;
    var lens := ComputeLens(o, sensor, m);
    if lens.LensError? {
      return Cancelled, library;
    }
    camera.lens := MaxReal(1.0, lens.mm);
    SetRenderResolutionFromImage(render, image);
    if o.addBackground {
      var slot;
      slot, newLibrary := EnsureCameraBackgroundImage(camera, image, DefaultTag, library);
    }
    return Finished, newLibrary;
  }
}
