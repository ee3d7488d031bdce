/**
 * The video editor: the recorded zoom events and the zoom they activate
 * during playback, the crop rectangle, the seek handlers, the zoom-region and
 * text-overlay lists, the clock display, the resolution table and the export
 * file name.
 *
 * Positions on the video are percentages of the video element; pointer
 * positions come in as client coordinates together with the element's
 * bounding rectangle.
 */
module VideoEditor {
  import opened Common
  import opened Strings
  import opened TimeFormat

  /** A click recorded by the recorder: a time in milliseconds and a point. */
  datatype ZoomEvent = ZoomEvent(timestamp: real, x: real, y: real)

  datatype ZoomRegion = ZoomRegion(startTime: real, endTime: real, scale: real)

  /** A `Partial<ZoomRegion>`: each field is either given or absent. */
  datatype ZoomRegionUpdate = ZoomRegionUpdate(startTime: Option<real>, endTime: Option<real>, scale: Option<real>)

  datatype Position = Position(x: real, y: real)

  datatype TextStyle = TextStyle(fontSize: real, color: string, backgroundColor: string, fontWeight: string, fontFamily: string)

  datatype TextOverlay = TextOverlay(text: string, position: Position, startTime: real, endTime: real, style: TextStyle)

  datatype CropSettings = CropSettings(x: real, y: real, width: real, height: real)

  /** The zoom applied to the video: `scale(s) translate(x%, y%)`. */
  datatype Zoom = Zoom(scale: real, x: real, y: real)

  /** A bounding client rectangle. */
  datatype Rect = Rect(left: real, top: real, width: real, height: real)

  /** How long a zoom event stays active, in milliseconds. */
  const ZoomWindowMs: real := 4000.0

  /** The scale of every zoom the editor applies. */
  const ZoomScale: real := 1.5

  // ---------------------------------------------------------------------
  // Zoom events during playback
  // ---------------------------------------------------------------------

  /** The event is active at `t` ms: from its timestamp to 4000 ms later, both ends included. */
  predicate Covers(e: ZoomEvent, t: real) {
    e.timestamp <= t <= e.timestamp + ZoomWindowMs
  }

  /** `zoomEvents.find(...)`, as the index of the first event active at `t` ms. */
  function FirstActive(events: seq<ZoomEvent>, t: real): (r: Option<nat>)
    ensures r.Some? ==> r.value < |events| && Covers(events[r.value], t)
    ensures r.Some? ==> forall j :: 0 <= j < r.value ==> !Covers(events[j], t)
    ensures r.None? <==> forall j :: 0 <= j < |events| ==> !Covers(events[j], t)
  {
    if events == [] then None
    else if Covers(events[0], t) then Some(0)
    else match FirstActive(events[1..], t) {
      case None => None
      case Some(i) => Some(i + 1)
    }
  }

  /**
   * The zoom centred on a zoom event. The event's coordinates are divided by
   * the element's size, that is, read as pixels; the translation moves that
   * point to the centre (50%, 50%).
   */
  function ZoomTransform(e: ZoomEvent, width: real, height: real): (z: Zoom)
    requires width > 0.0 && height > 0.0
    ensures z.scale == ZoomScale
    ensures e.x / width * 100.0 + z.x == 50.0 && e.y / height * 100.0 + z.y == 50.0
  {
    Zoom(ZoomScale, 50.0 - e.x / width * 100.0, 50.0 - e.y / height * 100.0)
  }

  /** The zoom in force at playback time `seconds`: the first active event's, or none. */
  function ZoomAt(events: seq<ZoomEvent>, seconds: real, video: Rect): (r: Option<Zoom>)
    requires video.width > 0.0 && video.height > 0.0
    ensures r.Some? <==> exists j :: 0 <= j < |events| && Covers(events[j], seconds * 1000.0)
  {
    match FirstActive(events, seconds * 1000.0) {
      case None => None
      case Some(i) => Some(ZoomTransform(events[i], video.width, video.height))
    }
  }

  /** The first active event decides the zoom, whatever later events say. */
  lemma ZoomAtFirstWins(events: seq<ZoomEvent>, seconds: real, video: Rect, i: nat)
    requires video.width > 0.0 && video.height > 0.0
    requires i < |events| && Covers(events[i], seconds * 1000.0)
    requires forall j :: 0 <= j < i ==> !Covers(events[j], seconds * 1000.0)
    ensures ZoomAt(events, seconds, video) == Some(ZoomTransform(events[i], video.width, video.height))
  {
  }

  /**
   * The recorder stores event coordinates as percentages of the screen; the
   * editor reads them as pixels. Such an event is centred as intended only on
   * an element exactly 100 pixels wide, or when it lies on the left edge.
   */
  lemma PercentEventCentredOnlyAt100(e: ZoomEvent, width: real, height: real)
    requires width > 0.0 && height > 0.0
    ensures ZoomTransform(e, width, height).x == 50.0 - e.x <==> (e.x == 0.0 || width == 100.0)
  {
    var q := e.x / width;
    assert q * width == e.x;
    if q * 100.0 == e.x && e.x != 0.0 {
      assert q * 100.0 == q * width;
      assert q != 0.0;
      CancelFactor(q, 100.0, width);
    }
  }

  lemma CancelFactor(q: real, a: real, b: real)
    requires q != 0.0 && q * a == q * b
    ensures a == b
  {
    assert q * (a - b) == 0.0;
  }

  // ---------------------------------------------------------------------
  // Pointer positions, cropping and dragging
  // ---------------------------------------------------------------------

  /** `((client - origin) / size) * 100`: a pointer coordinate as a percentage of the element. */
  function PointerPercent(client: real, origin: real, size: real): (r: real)
    requires size > 0.0
    ensures 0.0 <= r <= 100.0 <==> origin <= client <= origin + size
  {
    var d := client - origin;
    DivUnitInterval(d, size);
    d / size * 100.0
  }

  lemma DivUnitInterval(d: real, s: real)
    requires s > 0.0
    ensures 0.0 <= d / s * 100.0 <= 100.0 <==> 0.0 <= d <= s
  {
    var q := d / s;
    assert q * s == d;
    if 0.0 <= d <= s {
      assert q >= 0.0;
      assert q <= 1.0;
    }
    if 0.0 <= q * 100.0 <= 100.0 {
      assert 0.0 <= q <= 1.0;
      assert q * s <= 1.0 * s;
    }
  }

  /** The pointer position as a percentage of the video rectangle. */
  function PointerPosition(clientX: real, clientY: real, video: Rect): Position
    requires video.width > 0.0 && video.height > 0.0
  {
    Position(PointerPercent(clientX, video.left, video.width), PointerPercent(clientY, video.top, video.height))
  }

  predicate InFrame(p: Position) {
    0.0 <= p.x <= 100.0 && 0.0 <= p.y <= 100.0
  }

  /**
   * The crop rectangle dragged from `start` to `current`: the box between the
   * two points, its corner clamped into the frame and its size cut so that it
   * ends inside the frame.
   */
  function CropDrag(start: Position, current: Position): (c: CropSettings)
    ensures 0.0 <= c.x <= 100.0 && 0.0 <= c.y <= 100.0
    ensures c.width >= 0.0 && c.height >= 0.0
    ensures c.x + c.width <= 100.0 && c.y + c.height <= 100.0
    ensures InFrame(start) && InFrame(current) ==>
      c.x == Min(start.x, current.x) && c.x + c.width == Max(start.x, current.x) &&
      c.y == Min(start.y, current.y) && c.y + c.height == Max(start.y, current.y)
  {
    var width := Abs(current.x - start.x);
    var height := Abs(current.y - start.y);
    var x := Min(current.x, start.x);
    var y := Min(current.y, start.y);
    var boundedX := Max(0.0, Min(100.0, x));
    var boundedY := Max(0.0, Min(100.0, y));
    CropSettings(boundedX, boundedY, Min(width, 100.0 - boundedX), Min(height, 100.0 - boundedY))
  }

  /** The rectangle does not depend on which corner the drag started from. */
  lemma CropDragSymmetric(a: Position, b: Position)
    ensures CropDrag(a, b) == CropDrag(b, a)
  {
    assert Abs(a.x - b.x) == Abs(b.x - a.x);
    assert Abs(a.y - b.y) == Abs(b.y - a.y);
  }

  /**
   * Dragged past the left edge, the rectangle keeps the dragged width from
   * the edge instead of being cut at the edge: its right side moves beyond
   * the start point.
   */
  lemma CropDragPastLeftEdge()
    ensures CropDrag(Position(10.0, 10.0), Position(-20.0, 20.0)) == CropSettings(0.0, 10.0, 30.0, 10.0)
  {
  }

  /** The text overlay's new position: the pointer clamped into the frame on each axis. */
  function DragPosition(pointer: Position): (p: Position)
    ensures InFrame(p)
    ensures InFrame(pointer) ==> p == pointer
    ensures pointer.x < 0.0 ==> p.x == 0.0
    ensures pointer.x > 100.0 ==> p.x == 100.0
    ensures pointer.y < 0.0 ==> p.y == 0.0
    ensures pointer.y > 100.0 ==> p.y == 100.0
  {
    Position(Max(0.0, Min(100.0, pointer.x)), Max(0.0, Min(100.0, pointer.y)))
  }

  // ---------------------------------------------------------------------
  // Seeking
  // ---------------------------------------------------------------------

  /** The slider's seek: a non-finite value is ignored, any other is clamped into [0, duration]. */
  function SeekTarget(value: Num, duration: real): (r: Option<real>)
    ensures r.Some? <==> value.Finite?
    ensures r.Some? && duration >= 0.0 ==> 0.0 <= r.value <= duration
    ensures r.Some? && 0.0 <= value.v <= duration ==> r.value == value.v
  {
    if value.NonFinite? then None else Some(Max(0.0, Min(value.v, duration)))
  }

  /** Five seconds back, not before 0. */
  function RewindTime(t: real): (r: real)
    ensures 0.0 <= r && r <= Max(t, 0.0)
    ensures t >= 5.0 ==> r == t - 5.0
  {
    Max(0.0, t - 5.0)
  }

  /** Five seconds ahead, not after the end. */
  function FastForwardTime(t: real, duration: real): (r: real)
    ensures r <= duration && r >= Min(t, duration)
    ensures t + 5.0 <= duration ==> r == t + 5.0
  {
    Min(duration, t + 5.0)
  }

  /** Rewind and fast-forward keep a time that lies in [0, duration] inside it. */
  lemma SkipsStayInRange(t: real, duration: real)
    requires 0.0 <= t <= duration
    ensures 0.0 <= RewindTime(t) <= duration
    ensures 0.0 <= FastForwardTime(t, duration) <= duration
  {
  }

  /**
   * A click on the timeline: the clicked fraction of its width times the
   * duration, used only when the duration is set, the result is finite and
   * it lies in [0, duration].
   */
  function TimelineClickTime(clientX: real, timeline: Rect, duration: real): (r: Option<real>)
    ensures r.Some? ==> 0.0 <= r.value <= duration
    ensures r.Some? ==> duration != 0.0 && timeline.width != 0.0
    ensures r.Some? ==> r.value * timeline.width == (clientX - timeline.left) * duration
    ensures r.Some? <==> (duration != 0.0 && timeline.width != 0.0 &&
                          0.0 <= (clientX - timeline.left) / timeline.width * duration <= duration)
  {
    if duration == 0.0 then None
    else match Divide(clientX - timeline.left, timeline.width) {
      case NonFinite => None
      case Finite(p) =>
        var t := p * duration;
        if 0.0 <= t <= duration then Some(t) else None
    }
  }

  /** With a positive duration, a click seeks exactly when it falls on the timeline bar. */
  lemma TimelineClickOnBar(clientX: real, timeline: Rect, duration: real)
    requires timeline.width > 0.0 && duration > 0.0
    ensures TimelineClickTime(clientX, timeline, duration).Some? <==>
      timeline.left <= clientX <= timeline.left + timeline.width
  {
    var d := clientX - timeline.left;
    var p := d / timeline.width;
    assert p * timeline.width == d;
    UnitTimes(p, duration);
    DivUnitInterval(d, timeline.width);
    assert 0.0 <= p <= 1.0 <==> 0.0 <= p * 100.0 <= 100.0;
  }

  lemma UnitTimes(p: real, duration: real)
    requires duration > 0.0
    ensures 0.0 <= p * duration <= duration <==> 0.0 <= p <= 1.0
  {
    if p < 0.0 {
      assert p * duration < 0.0;
    }
    if p > 1.0 {
      assert p * duration > 1.0 * duration;
    }
    if 0.0 <= p <= 1.0 {
      assert p * duration <= 1.0 * duration;
    }
  }

  // ---------------------------------------------------------------------
  // Zoom regions and text overlays
  // ---------------------------------------------------------------------

  /** The region `addZoomRegion` appends: from now, two seconds long unless the video ends first. */
  function NewZoomRegion(now: real, duration: real): (r: ZoomRegion)
    ensures r.startTime == now && r.scale == ZoomScale
    ensures r.endTime <= now + 2.0 && r.endTime <= duration
    ensures r.endTime == now + 2.0 || r.endTime == duration
  {
    ZoomRegion(now, Min(now + 2.0, duration), ZoomScale)
  }

  /** `{ ...region, ...updates }`: every field given in `u` replaces the region's. */
  function MergeRegion(region: ZoomRegion, u: ZoomRegionUpdate): (r: ZoomRegion)
    ensures r.startTime == u.startTime.GetOr(region.startTime)
    ensures r.endTime == u.endTime.GetOr(region.endTime)
    ensures r.scale == u.scale.GetOr(region.scale)
  {
    ZoomRegion(u.startTime.GetOr(region.startTime), u.endTime.GetOr(region.endTime), u.scale.GetOr(region.scale))
  }

  /** Merging an update with no fields changes nothing, and merging the same update twice is merging it once. */
  lemma MergeRegionLaws(region: ZoomRegion, u: ZoomRegionUpdate)
    ensures MergeRegion(region, ZoomRegionUpdate(None, None, None)) == region
    ensures MergeRegion(MergeRegion(region, u), u) == MergeRegion(region, u)
  {
  }

  /** An overlay is displayed while the playback time lies in [startTime, endTime]. */
  predicate Visible(o: TextOverlay, t: real) {
    o.startTime <= t <= o.endTime
  }

  /** The overlays rendered as shown at playback time `t`, in list order. */
  function ShownOverlays(overlays: seq<TextOverlay>, t: real): (r: seq<TextOverlay>)
    ensures forall o :: o in r <==> o in overlays && Visible(o, t)
    ensures |r| <= |overlays|
  {
    Filter(overlays, (o: TextOverlay) => Visible(o, t))
  }

  /** An overlay is shown at both ends of its window and at no time outside it. */
  lemma {:induction false} ShownExactlyInWindow(overlays: seq<TextOverlay>, i: nat, t: real)
    requires i < |overlays|
    ensures overlays[i] in ShownOverlays(overlays, overlays[i].startTime) <==> overlays[i].startTime <= overlays[i].endTime
    ensures overlays[i] in ShownOverlays(overlays, overlays[i].endTime) <==> overlays[i].startTime <= overlays[i].endTime
    ensures (t < overlays[i].startTime || t > overlays[i].endTime) ==> overlays[i] !in ShownOverlays(overlays, t)
  {
    assert overlays[i] in overlays;
  }

  /** The overlay `handleAddText` appends: five seconds from now, unless the video ends first. */
  function NewOverlay(text: string, position: Position, style: TextStyle, now: real, duration: real): (o: TextOverlay)
    ensures o.text == text && o.position == position && o.style == style
    ensures o.startTime == now && o.endTime == Min(now + 5.0, duration)
    ensures Visible(o, now) <==> now <= duration
  {
    TextOverlay(text, position, now, Min(now + 5.0, duration), style)
  }

  // ---------------------------------------------------------------------
  // Displays and export
  // ---------------------------------------------------------------------

  /** `formatTime`: `0:00` for a non-finite time, else minutes, `:`, seconds padded to two digits. */
  function FormatTime(t: Num): string {
    if t.NonFinite? then "0:00" else FormatClock(t.v)
  }

  /** A finite time that is not negative displays as its whole minutes and seconds. */
  lemma FormatTimeReadsBack(t: Num)
    requires t.NonFinite? || t.v >= 0.0
    ensures t.NonFinite? ==> ReadClock(FormatTime(t)) == Some((0, 0))
    ensures t.Finite? ==> ReadClock(FormatTime(t)) == Some(((t.v / 60.0).Floor as nat, JsRem(t.v, 60.0).Floor as nat))
    ensures t.Finite? ==> 0 <= JsRem(t.v, 60.0).Floor < 60
  {
    if t.Finite? {
      FormatClockReadsBack(t.v);
      MinutesSecondsSplit(t.v);
    } else {
      ReadClockOf("0", "00");
      assert ParseNat("0") == 0;
      assert ParseNat("00") == 0 by {
        assert "00"[..1] == "0";
      }
      assert "0" + ":" + "00" == "0:00";
    }
  }

  /** `getResolutionDimensions`: width and height for a resolution name, 1080p for any other name. */
  function ResolutionDimensions(resolution: string): (r: (nat, nat))
    ensures resolution == "720p" ==> r.1 == 720
    ensures resolution == "480p" ==> r.1 == 480
    ensures resolution != "720p" && resolution != "480p" ==> r.1 == 1080
    ensures r.1 * 16 <= r.0 * 9 < r.1 * 16 + 16
    ensures r == if resolution == "720p" then (1280, 720) else if resolution == "480p" then (854, 480) else (1920, 1080)
  {
    match resolution {
      case "1080p" => (1920, 1080)
      case "720p" => (1280, 720)
      case "480p" => (854, 480)
      case _ => (1920, 1080)
    }
  }

  predicate IsAlnum(c: char) {
    IsUpper(c) || IsLower(c) || IsDigit(c)
  }

  /** `replace(/[^a-z0-9]/gi, '_')`: every character that is not an ASCII letter or digit becomes `_`. */
  function ReplaceNonAlnum(s: string): (r: string)
    ensures |r| == |s|
    ensures forall i :: 0 <= i < |s| ==> r[i] == if IsAlnum(s[i]) then s[i] else '_'
  {
    seq(|s|, i requires 0 <= i < |s| => if IsAlnum(s[i]) then s[i] else '_')
  }

  /** The project title as the export file name's base. */
  function SanitizeTitle(title: string): string {
    Lower(ReplaceNonAlnum(title))
  }

  predicate IsFileNameChar(c: char) {
    IsLower(c) || IsDigit(c) || c == '_'
  }

  /**
   * The sanitised title has the title's length and only lower-case letters,
   * digits and `_`; letters and digits stay in place (lower-cased) and
   * sanitising again changes nothing.
   */
  lemma SanitizeTitleShape(title: string)
    ensures |SanitizeTitle(title)| == |title|
    ensures forall i :: 0 <= i < |title| ==> IsFileNameChar(SanitizeTitle(title)[i])
    ensures forall i :: 0 <= i < |title| && IsAlnum(title[i]) ==> SanitizeTitle(title)[i] == LowerChar(title[i])
    ensures forall i :: 0 <= i < |title| && !IsAlnum(title[i]) ==> SanitizeTitle(title)[i] == '_'
    ensures SanitizeTitle(SanitizeTitle(title)) == SanitizeTitle(title)
  {
    var s := SanitizeTitle(title);
    assert forall i :: 0 <= i < |s| ==> IsAlnum(s[i]) || s[i] == '_';
    assert forall i :: 0 <= i < |s| ==> ReplaceNonAlnum(s)[i] == s[i];
    assert ReplaceNonAlnum(s) == s;
    LowerIdempotent(ReplaceNonAlnum(title));
  }

  /** The download name: the sanitised title, `.`, the format (`gif` in the GIF branch). */
  function ExportFileName(title: string, format: string): string {
    SanitizeTitle(title) + "." + format
  }

  /** The extension read back from the download name (its last `.` field) is the format. */
  lemma ExportFileNameExtension(title: string, format: string)
    requires '.' !in format
    ensures LastField(ExportFileName(title, format), '.') == format
  {
    LastFieldAfterSep(SanitizeTitle(title), '.', format);
    assert ExportFileName(title, format) == SanitizeTitle(title) + ['.'] + format;
  }

  // ---------------------------------------------------------------------
  // The editor's state
  // ---------------------------------------------------------------------

  /**
   * The state the editor's handlers change. `zoomEvents` is the list handed
   * in by the recorder. A handler's `video` or `mounted` argument stands for
   * the video element reference, absent before the element is mounted.
   */
  class Editor {
    const zoomEvents: seq<ZoomEvent>
    var currentTime: real
    var duration: real
    var projectTitle: string
    var zoomRegions: seq<ZoomRegion>
    var selectedRegion: Option<nat>
    var textOverlays: seq<TextOverlay>
    var newTextValue: string
    var isAddingText: bool
    var textPosition: Position
    var newTextStyle: TextStyle
    var isCropping: bool
    var cropStart: Option<Position>
    var cropSettings: Option<CropSettings>
    var currentZoom: Option<Zoom>

    /** The initial state of the component. */
    constructor (events: seq<ZoomEvent>)
      ensures zoomEvents == events
      ensures currentTime == 0.0 && duration == 0.0 && projectTitle == "Untitled Project"
      ensures zoomRegions == [] && selectedRegion == None && textOverlays == []
      ensures newTextValue == "" && !isAddingText && textPosition == Position(50.0, 50.0)
      ensures newTextStyle == TextStyle(24.0, "#ffffff", "rgba(0, 0, 0, 0.5)", "normal", "Arial")
      ensures !isCropping && cropStart == None && cropSettings == None && currentZoom == None
    {
      zoomEvents := events;
      currentTime := 0.0;
      duration := 0.0;
      projectTitle := "Untitled Project";
      zoomRegions := [];
      selectedRegion := None;
      textOverlays := [];
      newTextValue := "";
      isAddingText := false;
      textPosition := Position(50.0, 50.0);
      newTextStyle := TextStyle(24.0, "#ffffff", "rgba(0, 0, 0, 0.5)", "normal", "Arial");
      isCropping := false;
      cropStart := None;
      cropSettings := None;
      currentZoom := None;
    }

    /** Metadata loaded: the duration is taken only when it is finite. */
    method LoadedMetadata(videoDuration: Num)
      modifies this`duration
      ensures duration == if videoDuration.Finite? then videoDuration.v else old(duration)
    {
      if videoDuration.Finite? {
        duration := videoDuration.v;
      }
    }

    /** The playback-time listener of the zoom effect, registered only when there are zoom events. */
    method ZoomTimeUpdate(mounted: bool, seconds: real, video: Rect)
      requires video.width > 0.0 && video.height > 0.0
      modifies this`currentZoom
      ensures currentZoom == if mounted && |zoomEvents| > 0 then ZoomAt(zoomEvents, seconds, video) else old(currentZoom)
    {
      if !mounted || |zoomEvents| == 0 {
        return;
      }
      currentZoom := ZoomAt(zoomEvents, seconds, video);
    }

    /** The slider: seeks to the clamped value, ignores a non-finite one. */
    method TimelineChange(mounted: bool, value: Num)
      modifies this`currentTime
      ensures currentTime == if mounted && value.Finite? then SeekTarget(value, duration).value else old(currentTime)
    {
      if !mounted || value.NonFinite? {
        return;
      }
      currentTime := SeekTarget(value, duration).value;
    }

    method Rewind(mounted: bool)
      modifies this`currentTime
      ensures currentTime == if mounted then RewindTime(old(currentTime)) else old(currentTime)
    {
      if mounted {
        currentTime := RewindTime(currentTime);
      }
    }

    method FastForward(mounted: bool)
      modifies this`currentTime
      ensures currentTime == if mounted then FastForwardTime(old(currentTime), duration) else old(currentTime)
    {
      if mounted {
        currentTime := FastForwardTime(currentTime, duration);
      }
    }

    /** A click on the timeline bar; nothing happens without a duration or off the bar. */
    method TimelineClick(mounted: bool, clientX: real, timeline: Rect)
      modifies this`currentTime
      ensures var t := TimelineClickTime(clientX, timeline, duration);
        currentTime == if mounted && t.Some? then t.value else old(currentTime)
    {
      if !mounted || duration == 0.0 {
        return;
      }
      var t := TimelineClickTime(clientX, timeline, duration);
      if t.Some? {
        currentTime := t.value;
      }
    }

    /** Appends one region at the current time and selects it. */
    method AddZoomRegion(mounted: bool)
      modifies this`zoomRegions, this`selectedRegion
      ensures mounted ==> zoomRegions == old(zoomRegions) + [NewZoomRegion(currentTime, duration)]
      ensures mounted ==> selectedRegion == Some(|old(zoomRegions)|)
      ensures mounted ==> zoomRegions[selectedRegion.value] == NewZoomRegion(currentTime, duration)
      ensures !mounted ==> zoomRegions == old(zoomRegions) && selectedRegion == old(selectedRegion)
    {
      if !mounted {
        return;
      }
      var region := NewZoomRegion(currentTime, duration);
      selectedRegion := Some(|zoomRegions|);
      zoomRegions := zoomRegions + [region];
    }

    /** Merges the given fields into region `index`; the other regions are unchanged. */
    method UpdateZoomRegion(index: nat, updates: ZoomRegionUpdate)
      requires index < |zoomRegions|
      modifies this`zoomRegions
      ensures zoomRegions == old(zoomRegions)[index := MergeRegion(old(zoomRegions)[index], updates)]
      ensures |zoomRegions| == |old(zoomRegions)|
      ensures forall j :: 0 <= j < |zoomRegions| && j != index ==> zoomRegions[j] == old(zoomRegions)[j]
    {
      zoomRegions := zoomRegions[index := MergeRegion(zoomRegions[index], updates)];
    }

    /** Adds an overlay for non-blank text and leaves the text-entry mode; blank text changes nothing. */
    method AddText()
      modifies this`textOverlays, this`newTextValue, this`isAddingText
      ensures Trim(old(newTextValue)) == [] ==>
        textOverlays == old(textOverlays) && newTextValue == old(newTextValue) && isAddingText == old(isAddingText)
      ensures Trim(old(newTextValue)) != [] ==>
        textOverlays == old(textOverlays) + [NewOverlay(old(newTextValue), textPosition, newTextStyle, currentTime, duration)]
        && newTextValue == "" && !isAddingText
    {
      if Trim(newTextValue) == [] {
        return;
      }
      var overlay := NewOverlay(newTextValue, textPosition, newTextStyle, currentTime, duration);
      textOverlays := textOverlays + [overlay];
      newTextValue := "";
      isAddingText := false;
    }

    /** Moves overlay `index` to the pointer, clamped into the frame; the other overlays are unchanged. */
    method TextDrag(index: nat, clientX: real, clientY: real, video: Option<Rect>)
      requires index < |textOverlays|
      requires video.Some? ==> video.value.width > 0.0 && video.value.height > 0.0
      modifies this`textOverlays
      ensures video.None? ==> textOverlays == old(textOverlays)
      ensures video.Some? ==> textOverlays == old(textOverlays)[index :=
        old(textOverlays)[index].(position := DragPosition(PointerPosition(clientX, clientY, video.value)))]
      ensures video.Some? ==> |textOverlays| == |old(textOverlays)| && InFrame(textOverlays[index].position)
    {
      if video.None? {
        return;
      }
      var p := DragPosition(PointerPosition(clientX, clientY, video.value));
      textOverlays := textOverlays[index := textOverlays[index].(position := p)];
    }

    /** Pressing the mouse starts a crop at the pointer with an empty rectangle. */
    method CropMouseDown(clientX: real, clientY: real, video: Option<Rect>)
      requires video.Some? ==> video.value.width > 0.0 && video.value.height > 0.0
      modifies this`cropStart, this`cropSettings
      ensures video.None? ==> cropStart == old(cropStart) && cropSettings == old(cropSettings)
      ensures video.Some? ==> var p := PointerPosition(clientX, clientY, video.value);
        cropStart == Some(p) && cropSettings == Some(CropSettings(p.x, p.y, 0.0, 0.0))
    {
      if video.None? {
        return;
      }
      var p := PointerPosition(clientX, clientY, video.value);
      cropStart := Some(p);
      cropSettings := Some(CropSettings(p.x, p.y, 0.0, 0.0));
    }

    /** Moving the mouse during a crop sets the rectangle between the start and the pointer. */
    method CropMouseMove(clientX: real, clientY: real, video: Option<Rect>)
      requires video.Some? ==> video.value.width > 0.0 && video.value.height > 0.0
      modifies this`cropSettings
      ensures cropStart.None? || video.None? ==> cropSettings == old(cropSettings)
      ensures cropStart.Some? && video.Some? ==>
        cropSettings == Some(CropDrag(cropStart.value, PointerPosition(clientX, clientY, video.value)))
    {
      if cropStart.None? || video.None? {
        return;
      }
      cropSettings := Some(CropDrag(cropStart.value, PointerPosition(clientX, clientY, video.value)));
    }

    method CropMouseUp()
      modifies this`cropStart
      ensures cropStart == None
    {
      cropStart := None;
    }

    /**
     * A click on the video zooms on the clicked point, given in pixels from
     * the element's corner. The event list is not extended: the extended copy
     * the handler builds is never stored.
     */
    method VideoClick(clientX: real, clientY: real, video: Option<Rect>)
      requires video.Some? ==> video.value.width > 0.0 && video.value.height > 0.0
      modifies this`currentZoom
      ensures video.None? || isCropping ==> currentZoom == old(currentZoom)
      ensures video.Some? && !isCropping ==> currentZoom == Some(ZoomTransform(
        ZoomEvent(currentTime * 1000.0, clientX - video.value.left, clientY - video.value.top),
        video.value.width, video.value.height))
    {
      if video.None? || isCropping {
        return;
      }
      var r := video.value;
      var event := ZoomEvent(currentTime * 1000.0, clientX - r.left, clientY - r.top);
      currentZoom := Some(ZoomTransform(event, r.width, r.height));
    }
  }
}
