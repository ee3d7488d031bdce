/**
 * The preview page: playback state for the recorded clip and the export
 * handler, which asks for a save path and hands the recording to the MP4 or
 * the GIF exporter.
 *
 * The video element, the save dialog and the exporters are outside the
 * model: whether a video element is mounted, what the dialog returns and
 * the clock's ISO time are parameters, and an export is the call it makes.
 * The page's time display is the unpadded `TimeFormat.FormatClock`.
 */
module PreviewPage {
  import opened Common
  import opened Strings
  import opened TimeFormat

  datatype ExportFormat = Mp4 | Gif

  datatype ExportQuality = High | Medium | Low

  function FormatName(f: ExportFormat): string {
    match f
    case Mp4 => "mp4"
    case Gif => "gif"
  }

  datatype PreviewState = PreviewState(
    isPlaying: bool,
    currentTime: real,
    duration: real,
    exportFormat: ExportFormat,
    exportQuality: ExportQuality,
    isExporting: bool)

  /** The state the page starts in. */
  function Initial(): (s: PreviewState)
    ensures !s.isPlaying && s.currentTime == 0.0 && s.duration == 0.0
    ensures s.exportFormat == Mp4 && s.exportQuality == High && !s.isExporting
  {
    PreviewState(false, 0.0, 0.0, Mp4, High, false)
  }

  /** The GIF frame rate for each quality. */
  function GifFps(q: ExportQuality): (fps: nat)
    ensures q == High ==> fps == 30
    ensures q == Medium ==> fps == 20
    ensures q == Low ==> fps == 10
  {
    match q
    case High => 30
    case Medium => 20
    case Low => 10
  }

  /** Better quality never means fewer frames, and the three rates are distinct. */
  lemma GifFpsOrdered(a: ExportQuality, b: ExportQuality)
    ensures a != b ==> GifFps(a) != GifFps(b)
    ensures GifFps(Low) < GifFps(Medium) < GifFps(High)
  {
  }

  /** `formatTime`: minutes unpadded, `:`, seconds padded to two digits; no finiteness guard. */
  function FormatTime(seconds: real): string {
    FormatClock(seconds)
  }

  /**
   * A time that is not negative displays as its whole minutes and the
   * seconds left over, the seconds field always exactly two digits.
   */
  lemma FormatTimeShape(seconds: real)
    requires seconds >= 0.0
    ensures ReadClock(FormatTime(seconds)) == Some(((seconds / 60.0).Floor as nat, JsRem(seconds, 60.0).Floor as nat))
    ensures |LastField(FormatTime(seconds), ':')| == 2
    ensures 0 <= JsRem(seconds, 60.0).Floor < 60
    ensures 60 * (seconds / 60.0).Floor + JsRem(seconds, 60.0).Floor == seconds.Floor
  {
    FormatClockReadsBack(seconds);
    MinutesSecondsSplit(seconds);
  }

  /** What the save dialog is given. */
  datatype SaveDialog = SaveDialog(title: string, defaultPath: string, filterName: string, extensions: seq<string>)

  /** `recording-<iso>.<format>`. */
  function DefaultPath(iso: string, f: ExportFormat): string {
    "recording-" + iso + "." + FormatName(f)
  }

  function DialogFor(iso: string, f: ExportFormat): SaveDialog {
    SaveDialog("Save Recording", DefaultPath(iso, f), if f == Mp4 then "MP4 Video" else "GIF", [FormatName(f)])
  }

  /**
   * The proposed file name ends in the chosen format however many dots the
   * ISO time holds, and the dialog's only extension filter is that same
   * format, so the default name always passes the filter.
   */
  lemma DefaultPathMatchesFilter(iso: string, f: ExportFormat)
    ensures LastField(DialogFor(iso, f).defaultPath, '.') == FormatName(f)
    ensures DialogFor(iso, f).extensions == [LastField(DialogFor(iso, f).defaultPath, '.')]
  {
    var n := FormatName(f);
    assert '.' !in n by {
      assert n[0] != '.' && n[1] != '.' && n[2] != '.';
    }
    assert DefaultPath(iso, f) == ("recording-" + iso) + ['.'] + n;
    LastFieldAfterSep("recording-" + iso, '.', n);
  }

  /** An exporter call: MP4, or GIF with its frame rate and looping. */
  datatype ExportCall = ExportMp4(path: string) | ExportGif(path: string, fps: nat, loop: bool)

  /** The exporter `handleExport` picks for a chosen path. */
  function ExportFor(s: PreviewState, path: string): (c: ExportCall)
    ensures c.path == path
    ensures c.ExportMp4? <==> s.exportFormat == Mp4
    ensures c.ExportGif? ==> c.fps == GifFps(s.exportQuality) && c.loop
  {
    if s.exportFormat == Mp4 then ExportMp4(path) else ExportGif(path, GifFps(s.exportQuality), true)
  }

  class Page {
    var state: PreviewState
    /** The dialogs shown and the exporter calls made, in order. */
    var dialogs: seq<SaveDialog>
    var exports: seq<ExportCall>

    constructor ()
      ensures state == Initial() && dialogs == [] && exports == []
    {
      state := Initial();
      dialogs := [];
      exports := [];
    }

    /** `handlePlayPause`: with a mounted video, playback flips; without one, nothing happens. */
    method HandlePlayPause(mounted: bool)
      modifies this`state
      ensures mounted ==> state == old(state).(isPlaying := !old(state).isPlaying)
      ensures !mounted ==> state == old(state)
    {
      if mounted {
        state := state.(isPlaying := !state.isPlaying);
      }
    }

    /** `handleTimeUpdate`: the element's time, or 0 when it reports none (`|| 0`). */
    method HandleTimeUpdate(mounted: bool, reported: Option<real>)
      modifies this`state
      ensures mounted ==> state == old(state).(currentTime := reported.GetOr(0.0))
      ensures !mounted ==> state == old(state)
    {
      if mounted {
        state := state.(currentTime := reported.GetOr(0.0));
      }
    }

    /** `handleLoadedMetadata`: the element's duration, or 0 when it reports none. */
    method HandleLoadedMetadata(mounted: bool, reported: Option<real>)
      modifies this`state
      ensures mounted ==> state == old(state).(duration := reported.GetOr(0.0))
      ensures !mounted ==> state == old(state)
    {
      if mounted {
        state := state.(duration := reported.GetOr(0.0));
      }
    }

    /** `handleSeek`: the slider value, unclamped. */
    method HandleSeek(mounted: bool, t: real)
      modifies this`state
      ensures mounted ==> state == old(state).(currentTime := t)
      ensures !mounted ==> state == old(state)
    {
      if mounted {
        state := state.(currentTime := t);
      }
    }

    /** The format and quality selects. */
    method SetExportFormat(f: ExportFormat)
      modifies this`state
      ensures state == old(state).(exportFormat := f)
    {
      state := state.(exportFormat := f);
    }

    method SetExportQuality(q: ExportQuality)
      modifies this`state
      ensures state == old(state).(exportQuality := q)
    {
      state := state.(exportQuality := q);
    }

    /**
     * `handleExport`: nothing at all without a recording. Otherwise the flag
     * is raised, the dialog proposes the default name, and for a chosen (non
     * empty) path the exporter for the current format runs while the flag is
     * up; afterwards the flag is down whatever happened.
     */
    method HandleExport(hasRecording: bool, iso: string, chosen: Option<string>)
      modifies this`state, this`dialogs, this`exports
      ensures !hasRecording ==> state == old(state) && dialogs == old(dialogs) && exports == old(exports)
      ensures hasRecording ==> state == old(state).(isExporting := false)
      ensures hasRecording ==> dialogs == old(dialogs) + [DialogFor(iso, old(state).exportFormat)]
      ensures hasRecording && (chosen.None? || chosen.value == "") ==> exports == old(exports)
      ensures hasRecording && chosen.Some? && chosen.value != "" ==>
        exports == old(exports) + [ExportFor(old(state), chosen.value)]
    {
      if !hasRecording {
        return;
      }
      state := state.(isExporting := true);
      RunExport(iso, chosen);
      state := state.(isExporting := false);
    }

    /** The body of the `try`: it only runs while the export flag is up. */
    method RunExport(iso: string, chosen: Option<string>)
      requires state.isExporting
      modifies this`dialogs, this`exports
      ensures dialogs == old(dialogs) + [DialogFor(iso, state.exportFormat)]
      ensures chosen.None? || chosen.value == "" ==> exports == old(exports)
      ensures chosen.Some? && chosen.value != "" ==> exports == old(exports) + [ExportFor(state, chosen.value)]
    {
      dialogs := dialogs + [DialogFor(iso, state.exportFormat)];
      if chosen.Some? && chosen.value != "" {
        exports := exports + [ExportFor(state, chosen.value)];
      }
    }
  }
}
