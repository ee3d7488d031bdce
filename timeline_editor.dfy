/**
 * The trimming timeline: the trim range, the timeline zoom, the playhead
 * marker, jumping by clicking the bar, the `mm:ss` clock and the second
 * markers along the bar.
 */
module TimelineEditor {
  import opened Common
  import opened Strings
  import opened TimeFormat
  import VideoEditor

  /** `formatTime`: both fields padded to two digits. */
  function FormatTime(seconds: real): string {
    FormatClockPadded(seconds)
  }

  /** Below 100 minutes the display is exactly `mm:ss` and reads back as the time's minutes and seconds. */
  lemma FormatTimeShape(seconds: real)
    requires 0.0 <= seconds < 6000.0
    ensures |FormatTime(seconds)| == 5 && FormatTime(seconds)[2] == ':'
    ensures ReadClock(FormatTime(seconds)) ==
      Some((MinutesSeconds(seconds).0 as nat, MinutesSeconds(seconds).1 as nat))
  {
    FormatClockPaddedReadsBack(seconds);
    MinutesSecondsSplit(seconds);
    var m, s := MinutesSeconds(seconds).0, MinutesSeconds(seconds).1;
    assert m < 100;
    Pad2Length(m);
    Pad2Length(s);
    PaddedPairShape(Pad2(NatToString(m)), Pad2(NatToString(s)));
  }

  /** Two strings of two characters around a colon. */
  lemma PaddedPairShape(a: string, b: string)
    requires |a| == 2 && |b| == 2
    ensures |a + ":" + b| == 5 && (a + ":" + b)[2] == ':'
  {
  }

  /** `Math.ceil`. */
  function Ceil(x: real): (r: int)
    ensures r as real - 1.0 < x <= r as real
  {
    -((-x).Floor)
  }

  /** The playhead position in percent of the bar; no finite value when the duration is 0. */
  function MarkerPosition(time: real, duration: real): (r: Num)
    ensures r.Finite? <==> duration != 0.0
    ensures r.Finite? ==> r.v * duration == time * 100.0
    ensures r.Finite? && 0.0 < duration && 0.0 <= time <= duration ==> 0.0 <= r.v <= 100.0
    ensures r.Finite? && time == duration ==> r.v == 100.0
  {
    match Divide(time, duration) {
      case NonFinite => NonFinite
      case Finite(q) =>
        UnitFraction(time, duration);
        Finite(q * 100.0)
    }
  }

  lemma UnitFraction(t: real, d: real)
    ensures 0.0 < d && 0.0 <= t <= d ==> 0.0 <= t / d <= 1.0
  {
    if 0.0 < d && 0.0 <= t <= d {
      assert (t / d) * d == t;
      VideoEditor.UnitTimes(t / d, d);
    }
  }

  /** A second mark on the bar. */
  datatype Marker = Marker(index: nat, left: Num, heightPx: nat, caption: Option<string>)

  /** `i % 5 === 0`: a major marker, taller and labelled. */
  predicate IsMajor(i: nat) {
    i % 5 == 0
  }

  /** Marker `i`: at `i / duration` of the bar, 12 px with its time as label when major, else 8 px. */
  function MarkerAt(i: nat, duration: real): (m: Marker)
    ensures m.index == i
    ensures m.heightPx == (if IsMajor(i) then 12 else 8)
    ensures m.caption.Some? <==> IsMajor(i)
    ensures m.left.Finite? <==> duration != 0.0
  {
    Marker(i, MarkerPosition(i as real, duration),
           if IsMajor(i) then 12 else 8,
           if IsMajor(i) then Some(FormatTime(i as real)) else None)
  }

  /** The markers: one per whole second from 0 up to the duration rounded up. */
  function Markers(duration: real): (ms: seq<Marker>)
    requires duration >= 0.0
  {
    seq(Ceil(duration) + 1, i requires 0 <= i < Ceil(duration) + 1 => MarkerAt(i, duration))
  }

  /**
   * There are `ceil(duration) + 1` markers, marker `i` has index `i`, the last
   * one is at or after the end and the one before it is before the end, and
   * within the duration every marker lies on the bar.
   */
  lemma MarkersCover(duration: real)
    requires duration > 0.0
    ensures |Markers(duration)| == Ceil(duration) + 1
    ensures forall i :: 0 <= i < |Markers(duration)| ==> Markers(duration)[i] == MarkerAt(i, duration)
    ensures (|Markers(duration)| - 1) as real >= duration
    ensures (|Markers(duration)| - 2) as real < duration
    ensures forall i :: 0 <= i < |Markers(duration)| && i as real <= duration ==>
      0.0 <= Markers(duration)[i].left.v <= 100.0
  {
  }

  /** A major marker's label is `mm:ss` of its second and reads back as it, for the first 100 minutes. */
  lemma MajorLabel(i: nat, duration: real)
    requires IsMajor(i) && i < 6000
    ensures MarkerAt(i, duration).caption.Some?
    ensures |MarkerAt(i, duration).caption.value| == 5
    ensures ReadClock(MarkerAt(i, duration).caption.value) == Some((i / 60, i % 60))
  {
    FormatTimeShape(i as real);
    var (m, s) := MinutesSeconds(i as real);
    assert 60 * m + s == i;
    assert m == i / 60 && s == i % 60;
  }

  /** The zoom levels the buttons reach: 1 to 3 in steps of 0.5. */
  predicate ZoomStep(z: real) {
    z == 1.0 || z == 1.5 || z == 2.0 || z == 2.5 || z == 3.0
  }

  /** Where a click on the bar sends the video: its fraction of the bar times the duration, kept in [0, duration]. */
  function JumpTime(clientX: real, bar: VideoEditor.Rect, duration: real): (r: real)
    requires bar.width > 0.0
    ensures duration >= 0.0 ==> 0.0 <= r <= duration
  {
    var position := (clientX - bar.left) / bar.width;
    Max(0.0, Min(position * duration, duration))
  }

  /** A click on the bar itself needs no clamping: it lands at its fraction of the duration. */
  lemma JumpTimeOnBar(clientX: real, bar: VideoEditor.Rect, duration: real)
    requires bar.width > 0.0 && duration >= 0.0
    requires bar.left <= clientX <= bar.left + bar.width
    ensures JumpTime(clientX, bar, duration) == (clientX - bar.left) / bar.width * duration
  {
    var p := (clientX - bar.left) / bar.width;
    if duration > 0.0 {
      VideoEditor.DivUnitInterval(clientX - bar.left, bar.width);
      assert 0.0 <= p * 100.0 <= 100.0;
      VideoEditor.UnitTimes(p, duration);
    }
  }

  /**
   * The timeline's state. `videoTime` is the video element's playback time,
   * which a click on the bar sets; `currentTime` is the time shown, copied
   * from the video on each time update.
   */
  class Timeline {
    const duration: real
    var currentTime: real
    var videoTime: real
    var zoomLevel: real
    var trimRange: (real, real)
    var markerPosition: Num

    predicate Valid()
      reads this
    {
      ZoomStep(zoomLevel)
    }

    constructor (d: real)
      ensures Valid()
      ensures duration == d && currentTime == 0.0 && videoTime == 0.0 && zoomLevel == 1.0
      ensures trimRange == (0.0, d) && markerPosition == Finite(0.0)
    {
      duration := d;
      currentTime := 0.0;
      videoTime := 0.0;
      zoomLevel := 1.0;
      trimRange := (0.0, d);
      markerPosition := Finite(0.0);
    }

    /** The video's time update: the shown time and the playhead follow the video. */
    method TimeUpdate(t: real)
      modifies this`currentTime, this`markerPosition, this`videoTime
      ensures currentTime == t && videoTime == t && markerPosition == MarkerPosition(t, duration)
    {
      videoTime := t;
      currentTime := t;
      markerPosition := MarkerPosition(t, duration);
    }

    /** The trim slider: the two thumbs' values, in the order given. */
    method TrimChange(start: real, end: real)
      modifies this`trimRange
      ensures trimRange == (start, end)
    {
      trimRange := (start, end);
    }

    /** The minus button, disabled at 1: half a step down, not below 1. */
    method ZoomOut()
      requires Valid()
      modifies this`zoomLevel
      ensures Valid()
      ensures zoomLevel == if old(zoomLevel) <= 1.0 then old(zoomLevel) else Max(1.0, old(zoomLevel) - 0.5)
      ensures 1.0 <= zoomLevel <= 3.0 && zoomLevel <= old(zoomLevel)
    {
      if zoomLevel <= 1.0 {
        return;
      }
      zoomLevel := Max(1.0, zoomLevel - 0.5);
    }

    /** The plus button, disabled at 3: half a step up, not above 3. */
    method ZoomIn()
      requires Valid()
      modifies this`zoomLevel
      ensures Valid()
      ensures zoomLevel == if old(zoomLevel) >= 3.0 then old(zoomLevel) else Min(3.0, old(zoomLevel) + 0.5)
      ensures 1.0 <= zoomLevel <= 3.0 && zoomLevel >= old(zoomLevel)
    {
      if zoomLevel >= 3.0 {
        return;
      }
      zoomLevel := Min(3.0, zoomLevel + 0.5);
    }

    /** A click on the bar moves the video to the clicked time. */
    method JumpToPosition(mounted: bool, clientX: real, bar: VideoEditor.Rect)
      requires bar.width > 0.0
      modifies this`videoTime
      ensures videoTime == if mounted then JumpTime(clientX, bar, duration) else old(videoTime)
    {
      if !mounted {
        return;
      }
      videoTime := JumpTime(clientX, bar, duration);
    }
  }
}
