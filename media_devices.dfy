/**
 * The media device manager: the enumerated device list, the streams it has
 * opened by purpose, and the listeners told when the device list changes.
 *
 * The browser is outside the model. What `enumerateDevices` reports, whether
 * a `getUserMedia` call succeeds and the stream it yields are parameters;
 * a stream is a handle, and stopping its tracks is recorded in `stopped`.
 */
module MediaDevices {
  import opened Common

  datatype DeviceKind = AudioInput | AudioOutput | VideoInput

  function KindName(k: DeviceKind): string {
    match k
    case AudioInput => "audioinput"
    case AudioOutput => "audiooutput"
    case VideoInput => "videoinput"
  }

  /** A device as enumerated and as stored; the label of an enumerated device may be empty. */
  datatype Device = Device(deviceId: string, deviceLabel: string, kind: DeviceKind, groupId: string)

  /** The record `updateDevices` keeps: the same device, with a placeholder for an empty label. */
  function ToRecord(d: Device): (r: Device)
    ensures r.deviceId == d.deviceId && r.kind == d.kind && r.groupId == d.groupId
    ensures d.deviceLabel != "" ==> r.deviceLabel == d.deviceLabel
    ensures d.deviceLabel == "" ==> r.deviceLabel == "Unknown " + KindName(d.kind)
    ensures r.deviceLabel != ""
  {
    d.(deviceLabel := if d.deviceLabel != "" then d.deviceLabel else "Unknown " + KindName(d.kind))
  }

  function ToRecords(ds: seq<Device>): (r: seq<Device>)
    ensures |r| == |ds|
    ensures forall i :: 0 <= i < |ds| ==> r[i] == ToRecord(ds[i])
  {
    if ds == [] then [] else [ToRecord(ds[0])] + ToRecords(ds[1..])
  }

  /** Mapping twice is mapping once: a stored list read back through the mapping is unchanged. */
  lemma ToRecordsIdempotent(ds: seq<Device>)
    ensures ToRecords(ToRecords(ds)) == ToRecords(ds)
  {
  }

  /** The devices of one kind, in enumeration order. */
  function OfKind(ds: seq<Device>, k: DeviceKind): (r: seq<Device>)
    ensures forall i :: 0 <= i < |r| ==> r[i].kind == k
    ensures forall d :: d in r <==> d in ds && d.kind == k
  {
    Filter(ds, (d: Device) => d.kind == k)
  }

  /** The three kind getters split the list: every device is returned by exactly one of them. */
  lemma {:induction false} KindsPartition(ds: seq<Device>)
    ensures |OfKind(ds, AudioInput)| + |OfKind(ds, AudioOutput)| + |OfKind(ds, VideoInput)| == |ds|
  {
    if ds != [] {
      KindsPartition(ds[1..]);
      assert ds == [ds[0]] + ds[1..];
      FilterConcat([ds[0]], ds[1..], (d: Device) => d.kind == AudioInput);
      FilterConcat([ds[0]], ds[1..], (d: Device) => d.kind == AudioOutput);
      FilterConcat([ds[0]], ds[1..], (d: Device) => d.kind == VideoInput);
    }
  }

  /** `devices.some(d => d.deviceId === id)`. */
  function Known(ds: seq<Device>, id: string): (r: bool)
    ensures r <==> exists i :: 0 <= i < |ds| && ds[i].deviceId == id
  {
    if ds == [] then false
    else ds[0].deviceId == id || Known(ds[1..], id)
  }

  datatype VideoOptions = VideoOptions(deviceId: Option<string>, width: Option<int>, height: Option<int>, frameRate: Option<int>, aspectRatio: Option<real>)

  datatype AudioOptions = AudioOptions(
    deviceId: Option<string>, echoCancellation: Option<bool>, noiseSuppression: Option<bool>, autoGainControl: Option<bool>)

  datatype StreamOptions = StreamOptions(video: Option<VideoOptions>, audio: Option<AudioOptions>)

  /** A device id the options name: present and not the empty string, which is falsy. */
  function VideoDeviceId(o: StreamOptions): Option<string> {
    if o.video.Some? && o.video.value.deviceId.Some? && o.video.value.deviceId.value != "" then o.video.value.deviceId else None
  }

  function AudioDeviceId(o: StreamOptions): Option<string> {
    if o.audio.Some? && o.audio.value.deviceId.Some? && o.audio.value.deviceId.value != "" then o.audio.value.deviceId else None
  }

  /** The mandatory screen constraints: `||` defaults, so a missing or zero value takes 1920, 1080 or 30. */
  datatype ScreenConstraints = ScreenConstraints(
    sourceId: string, minWidth: int, maxWidth: int, minHeight: int, maxHeight: int, minFrameRate: int, maxFrameRate: int)

  function OrDefault(v: Option<int>, d: int): (r: int)
    ensures v.None? || v.value == 0 ==> r == d
    ensures v.Some? && v.value != 0 ==> r == v.value
  {
    if v.Some? && v.value != 0 then v.value else d
  }

  function ScreenFor(sourceId: string, o: Option<StreamOptions>): (c: ScreenConstraints)
    ensures c.sourceId == sourceId
    ensures c.minWidth == c.maxWidth && c.minHeight == c.maxHeight && c.minFrameRate == c.maxFrameRate
    ensures (o.None? || o.value.video.None?) ==> c.minWidth == 1920 && c.minHeight == 1080 && c.minFrameRate == 30
    ensures o.Some? && o.value.video.Some? ==>
      c.minWidth == OrDefault(o.value.video.value.width, 1920) &&
      c.minHeight == OrDefault(o.value.video.value.height, 1080) &&
      c.minFrameRate == OrDefault(o.value.video.value.frameRate, 30)
  {
    var v := if o.Some? && o.value.video.Some? then o.value.video.value else VideoOptions(None, None, None, None, None);
    var w, h, f := OrDefault(v.width, 1920), OrDefault(v.height, 1080), OrDefault(v.frameRate, 30);
    ScreenConstraints(sourceId, w, w, h, h, f, f)
  }

  /** The audio constraints: each processing flag is `?? true`, so only an explicit `false` turns one off. */
  datatype AudioConstraints = AudioConstraints(deviceId: Option<string>, echoCancellation: bool, noiseSuppression: bool, autoGainControl: bool)

  function AudioFor(o: Option<StreamOptions>): (c: AudioConstraints)
    ensures o.None? || o.value.audio.None? ==> c == AudioConstraints(None, true, true, true)
    ensures o.Some? && o.value.audio.Some? ==>
      c.deviceId == o.value.audio.value.deviceId &&
      (c.echoCancellation <==> o.value.audio.value.echoCancellation != Some(false)) &&
      (c.noiseSuppression <==> o.value.audio.value.noiseSuppression != Some(false)) &&
      (c.autoGainControl <==> o.value.audio.value.autoGainControl != Some(false))
  {
    if o.None? || o.value.audio.None? then AudioConstraints(None, true, true, true)
    else
      var a := o.value.audio.value;
      AudioConstraints(a.deviceId, a.echoCancellation.GetOr(true), a.noiseSuppression.GetOr(true), a.autoGainControl.GetOr(true))
  }

  /** What the streams map is keyed by. */
  datatype StreamType = Screen | Camera | Audio

  type StreamRef = nat
  type ListenerId = nat

  datatype MediaError = PermissionDenied | NoScreenSource | CaptureFailed

  /** One listener call of a device-change notification, with the list it is given. */
  datatype Notice = Notice(listener: ListenerId, devices: seq<Device>)

  class Manager {
    var devices: seq<Device>
    var streams: map<StreamType, StreamRef>
    var permissionsGranted: bool
    var listeners: seq<ListenerId>
    /** Streams whose tracks have been stopped. */
    var stopped: set<StreamRef>

    constructor ()
      ensures devices == [] && streams == map[] && !permissionsGranted && listeners == [] && stopped == {}
    {
      devices := [];
      streams := map[];
      permissionsGranted := false;
      listeners := [];
      stopped := {};
    }

    /** `requestPermissions`: a successful request grants permission; a refusal throws and changes nothing. */
    method RequestPermissions(allowed: bool) returns (r: Result<(), MediaError>)
      modifies this`permissionsGranted
      ensures allowed ==> r == Ok(()) && permissionsGranted
      ensures !allowed ==> r == Err(PermissionDenied) && permissionsGranted == old(permissionsGranted)
    {
      if !allowed {
        return Err(PermissionDenied);
      }
      permissionsGranted := true;
      r := Ok(());
    }

    /** `updateDevices`: the enumerated list, each entry through the record mapping. */
    method UpdateDevices(enumerated: seq<Device>)
      modifies this`devices
      ensures devices == ToRecords(enumerated)
    {
      devices := ToRecords(enumerated);
    }

    /** `getDevices`: asks for permission first when it has not been granted; then a copy of the list. */
    method GetDevices(allowed: bool) returns (r: Result<seq<Device>, MediaError>)
      modifies this`permissionsGranted
      ensures old(permissionsGranted) ==> r == Ok(devices) && permissionsGranted
      ensures !old(permissionsGranted) ==> (r.Ok? <==> allowed)
      ensures r.Ok? ==> r.value == devices && permissionsGranted
    {
      if !permissionsGranted {
        var p := RequestPermissions(allowed);
        if p.Err? {
          return Err(p.error);
        }
      }
      r := Ok(devices);
    }

    method GetDevicesOfKind(k: DeviceKind) returns (r: seq<Device>)
      ensures r == OfKind(devices, k)
    {
      r := OfKind(devices, k);
    }

    /** `validateDevice`: true exactly when a known device has this id. */
    method ValidateDevice(id: string) returns (r: bool)
      ensures r <==> exists i :: 0 <= i < |devices| && devices[i].deviceId == id
    {
      r := Known(devices, id);
    }

    /** `validateStreamOptions`: false exactly when a non-empty video or audio device id is unknown. */
    method ValidateStreamOptions(o: StreamOptions) returns (r: bool)
      ensures !r <==> (VideoDeviceId(o).Some? && !Known(devices, VideoDeviceId(o).value)) ||
                      (AudioDeviceId(o).Some? && !Known(devices, AudioDeviceId(o).value))
    {
      var v := VideoDeviceId(o);
      if v.Some? {
        var known := ValidateDevice(v.value);
        if !known {
          return false;
        }
      }
      var a := AudioDeviceId(o);
      if a.Some? {
        var known := ValidateDevice(a.value);
        if !known {
          return false;
        }
      }
      r := true;
    }

    /**
     * `getScreenCaptureStream`: the first display source's constraints; the
     * resulting stream replaces the one kept under `Screen`. With no source,
     * or when capture fails, it throws and nothing is stored.
     */
    method GetScreenCaptureStream(o: Option<StreamOptions>, sources: seq<string>, obtained: Option<StreamRef>)
      returns (r: Result<ScreenConstraints, MediaError>)
      modifies this`streams
      ensures sources == [] ==> r == Err(NoScreenSource) && streams == old(streams)
      ensures sources != [] && obtained.None? ==> r == Err(CaptureFailed) && streams == old(streams)
      ensures sources != [] && obtained.Some? ==>
        r == Ok(ScreenFor(sources[0], o)) && streams == old(streams)[Screen := obtained.value]
    {
      if sources == [] {
        return Err(NoScreenSource);
      }
      var c := ScreenFor(sources[0], o);
      if obtained.None? {
        return Err(CaptureFailed);
      }
      streams := streams[Screen := obtained.value];
      r := Ok(c);
    }

    /** `getCameraStream`: the video options are passed through unchanged; the stream is kept under `Camera`. */
    method GetCameraStream(o: Option<StreamOptions>, obtained: Option<StreamRef>) returns (r: Result<Option<VideoOptions>, MediaError>)
      modifies this`streams
      ensures obtained.None? ==> r == Err(CaptureFailed) && streams == old(streams)
      ensures obtained.Some? ==> r == Ok(if o.Some? then o.value.video else None)
      ensures obtained.Some? ==> streams == old(streams)[Camera := obtained.value]
    {
      if obtained.None? {
        return Err(CaptureFailed);
      }
      streams := streams[Camera := obtained.value];
      r := Ok(if o.Some? then o.value.video else None);
    }

    /** `getAudioStream`: the audio constraints with their `?? true` defaults; the stream is kept under `Audio`. */
    method GetAudioStream(o: Option<StreamOptions>, obtained: Option<StreamRef>) returns (r: Result<AudioConstraints, MediaError>)
      modifies this`streams
      ensures obtained.None? ==> r == Err(CaptureFailed) && streams == old(streams)
      ensures obtained.Some? ==> r == Ok(AudioFor(o)) && streams == old(streams)[Audio := obtained.value]
    {
      if obtained.None? {
        return Err(CaptureFailed);
      }
      streams := streams[Audio := obtained.value];
      r := Ok(AudioFor(o));
    }

    /** `stopStream`: stops and forgets only that entry; an absent one is a no-op. */
    method StopStream(t: StreamType)
      modifies this`streams, this`stopped
      ensures t in old(streams) ==> streams == old(streams) - {t} && stopped == old(stopped) + {old(streams)[t]}
      ensures t !in old(streams) ==> streams == old(streams) && stopped == old(stopped)
      ensures t !in streams
    {
      if t in streams {
        stopped := stopped + {streams[t]};
        streams := streams - {t};
      }
    }

    /** `stopAllStreams`: every stream is stopped and the map is emptied. */
    method StopAllStreams()
      modifies this`streams, this`stopped
      ensures streams == map[] && stopped == old(stopped) + old(streams).Values
    {
      stopped := stopped + streams.Values;
      streams := map[];
    }

    /** `addDeviceChangeListener`: appended, even when already present. */
    method AddDeviceChangeListener(l: ListenerId)
      modifies this`listeners
      ensures listeners == old(listeners) + [l]
    {
      listeners := listeners + [l];
    }

    /** The unsubscribe function it returns: every occurrence of that listener goes, the others stay in order. */
    method Unsubscribe(l: ListenerId)
      modifies this`listeners
      ensures listeners == Filter(old(listeners), x => x != l)
      ensures l !in listeners
      ensures forall x :: x in listeners <==> x in old(listeners) && x != l
    {
      listeners := Filter(listeners, x => x != l);
    }

    /** `notifyDeviceChange`: each listener in order, each given the current device list. */
    method NotifyDeviceChange() returns (calls: seq<Notice>)
      ensures |calls| == |listeners|
      ensures forall i :: 0 <= i < |calls| ==> calls[i] == Notice(listeners[i], devices)
    {
      calls := [];
      for i := 0 to |listeners|
        invariant |calls| == i
        invariant forall j :: 0 <= j < i ==> calls[j] == Notice(listeners[j], devices)
      {
        calls := calls + [Notice(listeners[i], devices)];
      }
    }

    /** The `devicechange` handler: the list is re-read, then every listener sees the new list. */
    method OnDeviceChange(enumerated: seq<Device>) returns (calls: seq<Notice>)
      modifies this`devices
      ensures devices == ToRecords(enumerated)
      ensures |calls| == |listeners|
      ensures forall i :: 0 <= i < |calls| ==> calls[i] == Notice(listeners[i], ToRecords(enumerated))
    {
      UpdateDevices(enumerated);
      calls := NotifyDeviceChange();
    }
  }
}
