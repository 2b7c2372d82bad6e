/**
 * `utils/render.py`: one render preset rewrites the output settings, the
 * Cycles and Eevee sampling settings and the simplify flag of a scene.
 */
module Render {
  import opened Common

  /** `render_preset`: the six items of the scene setting. */
  datatype Preset = Preview | Playblast | StillDraft | StillFinal | StillClay | Final

  datatype FileFormat = FFmpeg | Jpeg | Png | OpenExr | OtherFormat
  datatype ColorMode = Bw | Rgb | Rgba
  datatype ColorDepth = Depth8 | Depth16 | Depth32
  datatype Container = Mpeg4 | OtherContainer
  datatype RateFactor = MediumRate | HighRate | OtherRate

  /** The fields `_apply_output_settings` may write. */
  datatype OutputFields = OutputFields(
    useMotionBlur: bool,
    resolutionPercentage: int,
    fileFormat: FileFormat,
    colorMode: ColorMode,
    colorDepth: ColorDepth,
    quality: int,
    container: Container,
    rateFactor: RateFactor)

  /** `scene.render` with its `image_settings` and `ffmpeg` blocks. */
  class RenderSettings {
    var useMotionBlur: bool
    var resolutionPercentage: int
    var fileFormat: FileFormat
    var colorMode: ColorMode
    var colorDepth: ColorDepth
    /** `image_settings.quality`, written only when the host exposes it. */
    var quality: int
    const hasQuality: bool
    var container: Container
    var rateFactor: RateFactor
    var useSimplify: bool
    var resolutionX: int
    var resolutionY: int
    var pixelAspectX: real
    var pixelAspectY: real

    function Output(): OutputFields
      reads this
    {
      OutputFields(useMotionBlur, resolutionPercentage, fileFormat, colorMode, colorDepth, quality, container, rateFactor)
    }
  }

  datatype CyclesFields = CyclesFields(
    samples: int, previewSamples: int,
    useAdaptiveSampling: bool, useDenoising: bool, usePreviewDenoising: bool)

  /** `scene.cycles`. */
  class CyclesSettings {
    var samples: int
    var previewSamples: int
    var useAdaptiveSampling: bool
    var useDenoising: bool
    var usePreviewDenoising: bool

    function Fields(): CyclesFields
      reads this
    {
      CyclesFields(samples, previewSamples, useAdaptiveSampling, useDenoising, usePreviewDenoising)
    }
  }

  datatype EeveeFields = EeveeFields(
    taaRenderSamples: int, taaSamples: int,
    useMotionBlur: bool, useGtao: bool, useSsr: bool)

  /** `scene.eevee`. */
  class EeveeSettings {
    var taaRenderSamples: int
    var taaSamples: int
    var useMotionBlur: bool
    var useGtao: bool
    var useSsr: bool

    function Fields(): EeveeFields
      reads this
    {
      EeveeFields(taaRenderSamples, taaSamples, useMotionBlur, useGtao, useSsr)
    }
  }

  /** A scene: its render block, and the engine blocks when the engines are present. */
  class RenderScene {
    const render: RenderSettings
    const cycles: CyclesSettings?
    const eevee: EeveeSettings?

    constructor(render: RenderSettings, cycles: CyclesSettings?, eevee: EeveeSettings?)
      ensures this.render == render && this.cycles == cycles && this.eevee == eevee
    {
      this.render := render;
      this.cycles := cycles;
      this.eevee := eevee;
    }
  }

  /** `_CYCLES_SAMPLE_PRESETS`: (render, preview) samples. */
  function CyclesSamples(p: Preset): (int, int)
  {
    match p
    case Preview => (64, 32)
    case Playblast => (128, 64)
    case StillDraft => (256, 128)
    case StillFinal => (1024, 512)
    case StillClay => (256, 128)
    case Final => (512, 256)
  }

  /** `_EEVEE_SAMPLE_PRESETS`: (render, viewport) samples. */
  function EeveeSamples(p: Preset): (int, int)
  {
    match p
    case Preview => (16, 8)
    case Playblast => (32, 16)
    case StillDraft => (128, 64)
    case StillFinal => (256, 128)
    case StillClay => (96, 48)
    case Final => (64, 32)
  }

  /** Both tables give every preset positive sample counts, the preview half the render count. */
  lemma SampleTables(p: Preset)
    ensures CyclesSamples(p).0 > 0 && CyclesSamples(p).0 == 2 * CyclesSamples(p).1
    ensures EeveeSamples(p).0 > 0 && EeveeSamples(p).0 == 2 * EeveeSamples(p).1
  {
  }

  /** The presets of the still and final family. */
  predicate IsStillOrFinal(p: Preset)
  {
    p == StillDraft || p == StillFinal || p == StillClay || p == Final
  }

  /** `preset in {"PREVIEW", "PLAYBLAST", "STILL_CLAY"}`. */
  predicate Simplified(p: Preset)
  {
    p == Preview || p == Playblast || p == StillClay
  }

  /** The output fields after `_apply_output_settings`. */
  function OutputApplied(o: OutputFields, p: Preset, hasQuality: bool): OutputFields
  {
    var o := o.(useMotionBlur := p == Final);
    match p
    case Preview => o.(resolutionPercentage := 50, fileFormat := FFmpeg, container := Mpeg4, rateFactor := MediumRate)
    case Playblast => o.(resolutionPercentage := 100, fileFormat := FFmpeg, container := Mpeg4, rateFactor := HighRate)
    case StillDraft =>
      var o := o.(resolutionPercentage := 100, fileFormat := Jpeg, colorMode := Rgb);
      (if hasQuality then o.(quality := 95) else o).(useMotionBlur := false)
    case StillFinal =>
      o.(resolutionPercentage := 100, fileFormat := Png, colorDepth := Depth16, colorMode := Rgba, useMotionBlur := false)
    case StillClay =>
      o.(resolutionPercentage := 100, fileFormat := OpenExr, colorDepth := Depth16, colorMode := Rgb, useMotionBlur := false)
    case Final => o.(resolutionPercentage := 100, fileFormat := Png, colorDepth := Depth16)
  }

  /**
   * Motion blur ends on only for FINAL; the resolution is 50 % for PREVIEW
   * and 100 % otherwise; the movie presets write an MPEG-4 container and
   * leave the image fields alone; the still presets leave the container alone.
   */
  lemma OutputRules(o: OutputFields, p: Preset, hasQuality: bool)
    ensures var r := OutputApplied(o, p, hasQuality);
      && (r.useMotionBlur <==> p == Final)
      && r.resolutionPercentage == (if p == Preview then 50 else 100)
      && (p == Preview || p == Playblast ==>
            r.fileFormat == FFmpeg && r.container == Mpeg4
            && r.colorMode == o.colorMode && r.colorDepth == o.colorDepth && r.quality == o.quality)
      && (IsStillOrFinal(p) ==> r.container == o.container && r.rateFactor == o.rateFactor)
      && (r.quality != o.quality ==> p == StillDraft && hasQuality && r.quality == 95)
  {
  }

  /** Applying the output preset twice is applying it once. */
  lemma OutputIdempotent(o: OutputFields, p: Preset, hasQuality: bool)
    ensures OutputApplied(OutputApplied(o, p, hasQuality), p, hasQuality) == OutputApplied(o, p, hasQuality)
  {
  }

  /** The Cycles fields after `_apply_cycles_settings`. */
  function CyclesApplied(c: CyclesFields, p: Preset): CyclesFields
  {
    var (render, preview) := CyclesSamples(p);
    var c := c.(samples := render, previewSamples := preview);
    match p
    case Preview => c.(useAdaptiveSampling := true, useDenoising := false)
    case Playblast => c.(useAdaptiveSampling := true, useDenoising := true)
    case _ => c.(useAdaptiveSampling := true, useDenoising := true, usePreviewDenoising := true)
  }

  /** Samples come from the table, adaptive sampling is always on, denoising is off only for PREVIEW. */
  lemma CyclesRules(c: CyclesFields, p: Preset)
    ensures var r := CyclesApplied(c, p);
      && (r.samples, r.previewSamples) == CyclesSamples(p)
      && r.useAdaptiveSampling
      && (r.useDenoising <==> p != Preview)
      && r.usePreviewDenoising == (if IsStillOrFinal(p) then true else c.usePreviewDenoising)
  {
  }

  lemma CyclesIdempotent(c: CyclesFields, p: Preset)
    ensures CyclesApplied(CyclesApplied(c, p), p) == CyclesApplied(c, p)
  {
  }

  /** The Eevee fields after `_apply_eevee_settings`. */
  function EeveeApplied(e: EeveeFields, p: Preset): EeveeFields
  {
    var (render, viewport) := EeveeSamples(p);
    var e := e.(taaRenderSamples := render, taaSamples := viewport);
    match p
    case Preview => e.(useMotionBlur := false, useGtao := false, useSsr := false)
    case Playblast => e.(useMotionBlur := false, useGtao := true, useSsr := true)
    case _ => e.(useMotionBlur := true, useGtao := true, useSsr := true)
  }

  /**
   * Samples come from the table; PREVIEW turns motion blur, GTAO and SSR
   * off, the still and final presets turn them on, and PLAYBLAST keeps
   * motion blur off but GTAO and SSR on. Nothing depends on the old values.
   */
  lemma EeveeRules(e: EeveeFields, other: EeveeFields, p: Preset)
    ensures var r := EeveeApplied(e, p);
      && (r.taaRenderSamples, r.taaSamples) == EeveeSamples(p)
      && (r.useMotionBlur <==> IsStillOrFinal(p))
      && (r.useGtao <==> p != Preview)
      && (r.useSsr <==> p != Preview)
      && r == EeveeApplied(other, p)
  {
  }

  lemma EeveeIdempotent(e: EeveeFields, p: Preset)
    ensures EeveeApplied(EeveeApplied(e, p), p) == EeveeApplied(e, p)
  {
  }

  /** `_apply_output_settings`: writes the output fields and nothing else of the render block. */
  method ApplyOutputSettings(render: RenderSettings, p: Preset)
    modifies render
    ensures render.Output() == OutputApplied(old(render.Output()), p, render.hasQuality)
    ensures render.useSimplify == old(render.useSimplify)
    ensures render.resolutionX == old(render.resolutionX) && render.resolutionY == old(render.resolutionY)
    ensures render.pixelAspectX == old(render.pixelAspectX) && render.pixelAspectY == old(render.pixelAspectY)
  {
    render.useMotionBlur := p == Final;
    match p
    case Preview =>
      render.resolutionPercentage := 50;
      render.fileFormat := FFmpeg;
      render.container := Mpeg4;
      render.rateFactor := MediumRate;
    case Playblast =>
      render.resolutionPercentage := 100;
      render.fileFormat := FFmpeg;
      render.container := Mpeg4;
      render.rateFactor := HighRate;
    case StillDraft =>
      render.resolutionPercentage := 100;
      render.fileFormat := Jpeg;
      render.colorMode := Rgb;
      if render.hasQuality {
        render.quality := 95;
      }
      render.useMotionBlur := false;
    case StillFinal =>
      render.resolutionPercentage := 100;
      render.fileFormat := Png;
      render.colorDepth := Depth16;
      render.colorMode := Rgba;
      render.useMotionBlur := false;
    case StillClay =>
      render.resolutionPercentage := 100;
      render.fileFormat := OpenExr;
      render.colorDepth := Depth16;
      render.colorMode := Rgb;
      render.useMotionBlur := false;
    case Final =>
      render.resolutionPercentage := 100;
      render.fileFormat := Png;
      render.colorDepth := Depth16;
  }

  /** `_apply_cycles_settings`: nothing without Cycles. */
  method ApplyCyclesSettings(cycles: CyclesSettings?, p: Preset)
    modifies cycles
    ensures cycles != null ==> cycles.Fields() == CyclesApplied(old(cycles.Fields()), p)
  {
    if cycles == null {
      return;
    }
    var (renderSamples, previewSamples) := CyclesSamples(p);
    cycles.samples := renderSamples;
    cycles.previewSamples := previewSamples;
    if p == Preview {
      cycles.useAdaptiveSampling := true;
      cycles.useDenoising := false;
    } else if p == Playblast {
      cycles.useAdaptiveSampling := true;
      cycles.useDenoising := true;
    } else if IsStillOrFinal(p) {
      cycles.useAdaptiveSampling := true;
      cycles.useDenoising := true;
      cycles.usePreviewDenoising := true;
    }
  }

  /** `_apply_eevee_settings`: nothing without Eevee. */
  method ApplyEeveeSettings(eevee: EeveeSettings?, p: Preset)
    modifies eevee
    ensures eevee != null ==> eevee.Fields() == EeveeApplied(old(eevee.Fields()), p)
  {
    if eevee == null {
      return;
    }
    var (renderSamples, viewportSamples) := EeveeSamples(p);
    eevee.taaRenderSamples := renderSamples;
    eevee.taaSamples := viewportSamples;
    if p == Preview {
      eevee.useMotionBlur := false;
      eevee.useGtao := false;
      eevee.useSsr := false;
    } else if p == Playblast {
      eevee.useMotionBlur := false;
      eevee.useGtao := true;
      eevee.useSsr := true;
    } else if IsStillOrFinal(p) {
      eevee.useMotionBlur := true;
      eevee.useGtao := true;
      eevee.useSsr := true;
    }
  }

  /**
   * `apply_render_preset`: the output settings only with `adjustOutput`,
   * the engine settings only with `adjustSamples`, and the simplify flag
   * always.
   */
  method ApplyRenderPreset(scene: RenderScene, p: Preset, adjustOutput: bool, adjustSamples: bool)
    modifies scene.render, scene.cycles, scene.eevee
    ensures scene.render.Output() ==
      (if adjustOutput then OutputApplied(old(scene.render.Output()), p, scene.render.hasQuality) else old(scene.render.Output()))
    ensures scene.render.useSimplify == Simplified(p)
    ensures scene.render.resolutionX == old(scene.render.resolutionX) && scene.render.resolutionY == old(scene.render.resolutionY)
    ensures scene.render.pixelAspectX == old(scene.render.pixelAspectX) && scene.render.pixelAspectY == old(scene.render.pixelAspectY)
    ensures scene.cycles != null ==>
      scene.cycles.Fields() == (if adjustSamples then CyclesApplied(old(scene.cycles.Fields()), p) else old(scene.cycles.Fields()))
    ensures scene.eevee != null ==>
      scene.eevee.Fields() == (if adjustSamples then EeveeApplied(old(scene.eevee.Fields()), p) else old(scene.eevee.Fields()))
  {
    if adjustOutput {
      ApplyOutputSettings(scene.render, p);
    }
    if adjustSamples {
      ApplyCyclesSettings(scene.cycles, p);
      ApplyEeveeSettings(scene.eevee, p);
    }
    scene.render.useSimplify := p == Preview || p == Playblast || p == StillClay;
  }
}
