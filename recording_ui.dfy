/**
 * The recording screen: the clicks captured as zoom events while recording,
 * the start and stop transitions, the recorded chunks, the draggable camera
 * bubble and the conversion of a WebM recording to MP4 or GIF.
 *
 * Screen capture, the media recorder and ffmpeg are outside the model: what
 * they report (the capture was granted, a conversion step failed, the bytes
 * ffmpeg produced) comes in as arguments.
 */
module RecordingUI {
  import opened Common
  import opened VideoEditor

  /** Recorded media: its bytes and its MIME type. */
  datatype Blob = Blob(data: seq<bv8>, mime: string)

  /** The `state` of a `MediaRecorder`. */
  datatype RecorderState = Inactive | Recording | Paused

  datatype ExportFormat = Webm | Mp4 | Gif

  /** The MIME type of the recorder's chunks and of the recording made from them. */
  const RecordingMime: string := "video/webm;codecs=vp9,opus"

  /** The recording `onstop` assembles: the chunks' bytes one after the other. */
  function RecordingBytes(chunks: seq<Blob>): (r: seq<bv8>)
    ensures chunks == [] ==> r == []
  {
    if chunks == [] then [] else RecordingBytes(chunks[..|chunks| - 1]) + chunks[|chunks| - 1].data
  }

  predicate NonEmpty(b: Blob) {
    |b.data| > 0
  }

  /** Dropping the empty chunks does not change the recording. */
  lemma {:induction false} EmptyChunksDoNotMatter(chunks: seq<Blob>)
    ensures RecordingBytes(Filter(chunks, NonEmpty)) == RecordingBytes(chunks)
    decreases |chunks|
  {
    if chunks != [] {
      var init, last := chunks[..|chunks| - 1], chunks[|chunks| - 1];
      assert chunks == init + [last];
      FilterConcat(init, [last], NonEmpty);
      EmptyChunksDoNotMatter(init);
      RecordingBytesAppend(Filter(init, NonEmpty), Filter([last], NonEmpty));
      assert Filter([last], NonEmpty) == if NonEmpty(last) then [last] else [] by {
        assert [last][1..] == [];
      }
      if !NonEmpty(last) {
        assert Filter(chunks, NonEmpty) == Filter(init, NonEmpty) + [];
      }
    }
  }

  /** The recording of two runs of chunks is the first's bytes followed by the second's. */
  lemma {:induction false} RecordingBytesAppend(a: seq<Blob>, b: seq<Blob>)
    ensures RecordingBytes(a + b) == RecordingBytes(a) + RecordingBytes(b)
    decreases |b|
  {
    if b == [] {
      assert a + b == a;
    } else {
      var init, last := b[..|b| - 1], b[|b| - 1];
      var ab := a + b;
      assert ab[..|ab| - 1] == a + init && ab[|ab| - 1] == last;
      RecordingBytesAppend(a, init);
      var x, y := RecordingBytes(a), RecordingBytes(init);
      assert RecordingBytes(ab) == (x + y) + last.data;
      assert (x + y) + last.data == x + (y + last.data);
    }
  }

  /** The camera bubble's coordinate on one axis: the dragged coordinate kept in [0, max]. */
  function CameraClamp(dragged: real, max: real): (r: real)
    ensures r >= 0.0
    ensures max >= 0.0 ==> r <= max
    ensures 0.0 <= dragged <= max ==> r == dragged
  {
    Max(0.0, Min(dragged, max))
  }

  /**
   * One axis of a camera drag: the bubble keeps the pointer's offset from the
   * mouse-down point, within the free space of the container.
   */
  function CameraDrag(position: real, downClient: real, moveClient: real, containerSize: real, elementSize: real): (r: real)
    ensures r >= 0.0
    ensures elementSize <= containerSize ==> r <= containerSize - elementSize
  {
    var start := downClient - position;
    CameraClamp(moveClient - start, containerSize - elementSize)
  }

  /** A drag that has not moved leaves a bubble inside the container where it was. */
  lemma CameraDragStill(position: real, client: real, containerSize: real, elementSize: real)
    requires 0.0 <= position <= containerSize - elementSize
    ensures CameraDrag(position, client, client, containerSize, elementSize) == position
  {
  }

  // ---------------------------------------------------------------------
  // Conversion with ffmpeg
  // ---------------------------------------------------------------------

  /** What `readFile` gives back: text, or bytes. */
  datatype FfmpegOutput = Text(text: string) | Bytes(bytes: seq<bv8>)

  /**
   * How far an ffmpeg run gets: whether ffmpeg loads, whether writing the
   * input, running the command and listing the files succeed, and what reading
   * the output file gives (None when it throws).
   */
  datatype FfmpegRun = FfmpegRun(loaded: bool, written: bool, executed: bool, listed: bool, output: Option<FfmpegOutput>)

  /** Why a conversion failed. */
  datatype ConvertError =
    | LoadFailed
    | StepFailed
    | EmptyOutput(typeName: string)

  /** The ffmpeg file the command writes. */
  function OutputFileName(format: ExportFormat): string
    requires format != Webm
  {
    if format == Mp4 then "output.mp4" else "output.gif"
  }

  /** The MIME type of the converted blob. */
  function OutputMime(format: ExportFormat): string
    requires format != Webm
  {
    if format == Mp4 then "video/mp4" else "image/gif"
  }

  /** The output name and type agree: an `.mp4` file is `video/mp4`, a `.gif` file `image/gif`. */
  lemma OutputNameMatchesMime(format: ExportFormat)
    requires format != Webm
    ensures OutputFileName(format)[7..] == OutputMime(format)[6..]
    ensures format == Mp4 <==> OutputFileName(format) == "output.mp4"
  {
  }

  /** `convertFormat`'s result: the input for WebM, else the bytes ffmpeg produced, or the error. */
  function ConvertResult(blob: Blob, format: ExportFormat, run: FfmpegRun): (r: Result<Blob, ConvertError>)
    ensures format == Webm ==> r == Ok(blob)
    ensures format != Webm && r.Ok? ==>
      run.output == Some(Bytes(r.value.data)) && |r.value.data| > 0 && r.value.mime == OutputMime(format)
    ensures format != Webm && !run.loaded ==> r == Err(LoadFailed)
    ensures format != Webm && run.loaded && (!run.written || !run.executed || !run.listed || run.output.None?)
      ==> r == Err(StepFailed)
    ensures format != Webm && run.output.Some? && run.output.value.Text? && run.loaded && run.written && run.executed && run.listed
      ==> r == Err(EmptyOutput("string"))
    ensures format != Webm && run.output == Some(Bytes([])) && run.loaded && run.written && run.executed && run.listed
      ==> r == Err(EmptyOutput("object"))
    ensures format != Webm && run.loaded && run.written && run.executed && run.listed &&
      run.output.Some? && run.output.value.Bytes? && |run.output.value.bytes| > 0
      ==> r == Ok(Blob(run.output.value.bytes, OutputMime(format)))
  {
    if format == Webm then Ok(blob)
    else if !run.loaded then Err(LoadFailed)
    else if !run.written || !run.executed || !run.listed || run.output.None? then Err(StepFailed)
    else match run.output.value {
      case Text(_) => Err(EmptyOutput("string"))
      case Bytes(b) => if |b| == 0 then Err(EmptyOutput("object")) else Ok(Blob(b, OutputMime(format)))
    }
  }

  /** The progress values set during a conversion, in order. */
  function ConvertProgress(format: ExportFormat, run: FfmpegRun): (p: seq<real>)
  {
    if format == Webm || !run.loaded then []
    else if !run.written then [10.0]
    else if !run.executed || !run.listed then [10.0, 30.0]
    else if ConvertResult(Blob([], ""), format, run).Err? then [10.0, 30.0, 90.0]
    else [10.0, 30.0, 90.0, 100.0]
  }

  /**
   * The progress values are steps of 10, 30, 90, 100 in that order, cut short
   * where the conversion fails; they never go down, and 100 is reached
   * exactly when the conversion succeeds.
   */
  lemma ConvertProgressMonotone(blob: Blob, format: ExportFormat, run: FfmpegRun)
    ensures ConvertProgress(format, run) <= [10.0, 30.0, 90.0, 100.0]
    ensures forall i, j :: 0 <= i < j < |ConvertProgress(format, run)| ==>
      ConvertProgress(format, run)[i] < ConvertProgress(format, run)[j]
    ensures format != Webm ==>
      (ConvertResult(blob, format, run).Ok? <==> |ConvertProgress(format, run)| == 4)
  {
  }

  // ---------------------------------------------------------------------
  // The recorder's state
  // ---------------------------------------------------------------------

  /**
   * The recording screen's state. `recorder` is the media recorder reference
   * (None before the first recording) and its state.
   */
  class Recorder {
    var isRecording: bool
    var zoomEvents: seq<ZoomEvent>
    var recordingStartTime: real
    var chunks: seq<Blob>
    var recorder: Option<RecorderState>
    var exportFormat: ExportFormat
    var isProcessing: bool
    var progress: real
    var cameraX: real
    var cameraY: real

    constructor ()
      ensures !isRecording && zoomEvents == [] && recordingStartTime == 0.0 && chunks == []
      ensures recorder == None && exportFormat == Webm && !isProcessing && progress == 0.0
      ensures cameraX == 20.0 && cameraY == 20.0
    {
      isRecording := false;
      zoomEvents := [];
      recordingStartTime := 0.0;
      chunks := [];
      recorder := None;
      exportFormat := Webm;
      isProcessing := false;
      progress := 0.0;
      cameraX := 20.0;
      cameraY := 20.0;
    }

    /**
     * A click anywhere while recording: one event at the time since the start,
     * at the click's position in percent of the screen area, after the others.
     */
    method ScreenClick(now: real, clientX: real, clientY: real, screen: Option<Rect>)
      requires screen.Some? ==> screen.value.width > 0.0 && screen.value.height > 0.0
      modifies this`zoomEvents
      ensures !isRecording || screen.None? ==> zoomEvents == old(zoomEvents)
      ensures isRecording && screen.Some? ==> zoomEvents == old(zoomEvents) + [ZoomEvent(
        now - recordingStartTime,
        PointerPercent(clientX, screen.value.left, screen.value.width),
        PointerPercent(clientY, screen.value.top, screen.value.height))]
    {
      if !isRecording {
        return;
      }
      var timestamp := now - recordingStartTime;
      if screen.None? {
        return;
      }
      var r := screen.value;
      var event := ZoomEvent(timestamp, PointerPercent(clientX, r.left, r.width), PointerPercent(clientY, r.top, r.height));
      zoomEvents := zoomEvents + [event];
    }

    /**
     * Starts a recording at time `now`: the flag is set and the events and
     * chunks are emptied; when capture is refused the flag is cleared again.
     */
    method StartRecording(now: real, captureGranted: bool)
      modifies this`isRecording, this`zoomEvents, this`recordingStartTime, this`chunks, this`recorder
      ensures zoomEvents == [] && chunks == [] && recordingStartTime == now
      ensures isRecording == captureGranted
      ensures recorder == if captureGranted then Some(Recording) else old(recorder)
    {
      isRecording := true;
      zoomEvents := [];
      recordingStartTime := now;
      chunks := [];
      if !captureGranted {
        isRecording := false;
        return;
      }
      recorder := Some(Recording);
    }

    /** A chunk from the recorder: kept, after the others, only when it has data. */
    method DataAvailable(data: Blob)
      modifies this`chunks
      ensures chunks == if NonEmpty(data) then old(chunks) + [data] else old(chunks)
      ensures RecordingBytes(chunks) == RecordingBytes(old(chunks)) + data.data
    {
      RecordingBytesAppend(chunks, [data]);
      if NonEmpty(data) {
        chunks := chunks + [data];
      }
    }

    /** The recording handed on when the recorder stops. */
    function RecordedBlob(): (b: Blob)
      reads this
      ensures b.mime == RecordingMime
    {
      Blob(RecordingBytes(chunks), RecordingMime)
    }

    /** Stops a recorder that is running or paused; otherwise nothing happens. */
    method StopRecording()
      modifies this`recorder, this`isRecording
      ensures old(recorder).Some? && old(recorder).value != Inactive ==> recorder == Some(Inactive) && !isRecording
      ensures old(recorder).None? || old(recorder).value == Inactive ==>
        recorder == old(recorder) && isRecording == old(isRecording)
    {
      if recorder.Some? && recorder.value != Inactive {
        recorder := Some(Inactive);
        isRecording := false;
      }
    }

    /** A mouse move while dragging the camera bubble. */
    method CameraMouseMove(downX: real, downY: real, moveX: real, moveY: real, startX: real, startY: real,
                           containerWidth: real, containerHeight: real, elementWidth: real, elementHeight: real)
      modifies this`cameraX, this`cameraY
      ensures cameraX == CameraDrag(startX, downX, moveX, containerWidth, elementWidth)
      ensures cameraY == CameraDrag(startY, downY, moveY, containerHeight, elementHeight)
      ensures cameraX >= 0.0 && cameraY >= 0.0
    {
      cameraX := CameraDrag(startX, downX, moveX, containerWidth, elementWidth);
      cameraY := CameraDrag(startY, downY, moveY, containerHeight, elementHeight);
    }

    /**
     * `convertFormat`: WebM is returned as it is and touches nothing; any
     * other format marks processing, records the progress steps reached and
     * clears the processing flag whatever the outcome.
     */
    method Convert(blob: Blob, format: ExportFormat, run: FfmpegRun) returns (r: Result<Blob, ConvertError>)
      modifies this`isProcessing, this`progress
      ensures r == ConvertResult(blob, format, run)
      ensures format == Webm ==> isProcessing == old(isProcessing) && progress == old(progress)
      ensures format != Webm ==> !isProcessing
      ensures var p := ConvertProgress(format, run);
        progress == if p == [] then old(progress) else p[|p| - 1]
    {
      if format == Webm {
        return Ok(blob);
      }
      isProcessing := true;
      if !run.loaded {
        isProcessing := false;
        return Err(LoadFailed);
      }
      progress := 10.0;
      if !run.written {
        isProcessing := false;
        return Err(StepFailed);
      }
      progress := 30.0;
      if !run.executed || !run.listed {
        isProcessing := false;
        return Err(StepFailed);
      }
      progress := 90.0;
      r := ConvertResult(blob, format, run);
      if r.Ok? {
        progress := 100.0;
      }
      isProcessing := false;
    }
  }
}
