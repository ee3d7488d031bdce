/**
 * The settings page: the recording and camera-overlay settings with their
 * defaults, and the handlers that each replace one field of the previous
 * settings (`prev => ({...prev, field})`).
 *
 * Slider values are integers, as the sliders' integer bounds and steps
 * produce. Saving to local storage and navigation are outside the model.
 */
module SettingsPage {

  datatype Resolution = Resolution(width: int, height: int)

  datatype CameraPosition = TopRight | TopLeft | BottomRight | BottomLeft

  datatype Theme = Light | Dark

  datatype Settings = Settings(
    resolution: Resolution,
    fps: int,
    audioDevice: string,
    videoDevice: string,
    cameraPosition: CameraPosition,
    cameraSize: int,
    backgroundBlur: bool,
    theme: Theme)

  /** `defaultSettings`. */
  function Defaults(): (s: Settings)
    ensures s.resolution == Resolution(1920, 1080) && s.fps == 30
    ensures s.audioDevice == "default" && s.videoDevice == "default"
    ensures s.cameraPosition == TopRight && s.cameraSize == 200 && s.backgroundBlur && s.theme == Dark
  {
    Settings(Resolution(1920, 1080), 30, "default", "default", TopRight, 200, true, Dark)
  }

  /**
   * `Math.round(width * 9 / 16)`: the nearest integer to nine sixteenths of
   * the width, a half rounding up (`Math.round` sends halves towards +∞).
   * Dafny's `/` floors for a positive divisor.
   */
  function SixteenByNineHeight(width: int): (h: int)
    ensures 9 * width - 8 < 16 * h <= 9 * width + 8
  {
    (9 * width + 8) / 16
  }

  /** The rounding is exact when the width is a multiple of 16 (as every slider width is). */
  lemma ExactForMultiplesOf16(width: int)
    requires width % 16 == 0
    ensures 16 * SixteenByNineHeight(width) == 9 * width
  {
    var q := width / 16;
    assert width == 16 * q;
    assert 9 * width + 8 == 16 * (9 * q) + 8;
  }

  /** The widths the slider offers (1280 to 3840 in steps of 1280) and the default give the standard heights. */
  lemma SliderHeights()
    ensures SixteenByNineHeight(1280) == 720
    ensures SixteenByNineHeight(2560) == 1440
    ensures SixteenByNineHeight(3840) == 2160
    ensures SixteenByNineHeight(Defaults().resolution.width) == Defaults().resolution.height
  {
    ExactForMultiplesOf16(1280);
    ExactForMultiplesOf16(2560);
    ExactForMultiplesOf16(3840);
    ExactForMultiplesOf16(1920);
  }

  /** `handleResolutionChange`: the new width with its 16:9 height; nothing else changes. */
  function ResolutionChange(prev: Settings, width: int): (r: Settings)
    ensures r.resolution.width == width
    ensures 9 * width - 8 < 16 * r.resolution.height <= 9 * width + 8
    ensures r.(resolution := prev.resolution) == prev
  {
    prev.(resolution := Resolution(width, SixteenByNineHeight(width)))
  }

  /** `handleFPSChange`. */
  function FpsChange(prev: Settings, fps: int): (r: Settings)
    ensures r.fps == fps && r.(fps := prev.fps) == prev
  {
    prev.(fps := fps)
  }

  /** `handleCameraSizeChange`. */
  function CameraSizeChange(prev: Settings, size: int): (r: Settings)
    ensures r.cameraSize == size && r.(cameraSize := prev.cameraSize) == prev
  {
    prev.(cameraSize := size)
  }

  /** The audio device select. */
  function AudioDeviceChange(prev: Settings, device: string): (r: Settings)
    ensures r.audioDevice == device && r.(audioDevice := prev.audioDevice) == prev
  {
    prev.(audioDevice := device)
  }

  /** The video device select. */
  function VideoDeviceChange(prev: Settings, device: string): (r: Settings)
    ensures r.videoDevice == device && r.(videoDevice := prev.videoDevice) == prev
  {
    prev.(videoDevice := device)
  }

  /** The camera position select. */
  function CameraPositionChange(prev: Settings, p: CameraPosition): (r: Settings)
    ensures r.cameraPosition == p && r.(cameraPosition := prev.cameraPosition) == prev
  {
    prev.(cameraPosition := p)
  }

  /** The background blur switch. */
  function BackgroundBlurChange(prev: Settings, checked: bool): (r: Settings)
    ensures r.backgroundBlur == checked && r.(backgroundBlur := prev.backgroundBlur) == prev
  {
    prev.(backgroundBlur := checked)
  }

  /** The theme select. */
  function ThemeChange(prev: Settings, t: Theme): (r: Settings)
    ensures r.theme == t && r.(theme := prev.theme) == prev
  {
    prev.(theme := t)
  }

  /**
   * Because each handler touches only its own field, handlers for different
   * fields commute, and a handler applied again overrides the first call.
   */
  lemma HandlersIndependent(s: Settings, width: int, fps: int, size: int, fps2: int)
    ensures FpsChange(ResolutionChange(s, width), fps) == ResolutionChange(FpsChange(s, fps), width)
    ensures CameraSizeChange(FpsChange(s, fps), size) == FpsChange(CameraSizeChange(s, size), fps)
    ensures FpsChange(FpsChange(s, fps), fps2) == FpsChange(s, fps2)
    ensures ResolutionChange(ResolutionChange(s, width), width) == ResolutionChange(s, width)
  {
  }
}
