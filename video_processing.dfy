/**
 * The video processor: an ordered list of visual effects, the canvas filter
 * those effects set, and the processing flag that keeps the frame loop going.
 *
 * Canvas drawing, media streams and recorders are outside the model. A frame
 * is represented by the filter in force when it is drawn, and the track added
 * to the output stream by a count. Effect values are integers.
 */
module VideoProcessing {
  import opened Common
  import opened Strings

  datatype EffectType = Blur | Brightness | Contrast | Saturation | Hue | Grayscale | Sepia | Invert

  datatype Effect = Effect(kind: EffectType, value: int)

  /** The CSS filter function each effect type writes. */
  function FilterName(k: EffectType): string {
    match k
    case Blur => "blur"
    case Brightness => "brightness"
    case Contrast => "contrast"
    case Saturation => "saturate"
    case Hue => "hue-rotate"
    case Grayscale => "grayscale"
    case Sepia => "sepia"
    case Invert => "invert"
  }

  /** Its unit: pixels for blur, degrees for hue, a percentage for the rest. */
  function FilterUnit(k: EffectType): string {
    match k
    case Blur => "px"
    case Hue => "deg"
    case _ => "%"
  }

  /** The `apply*` helpers: the value written into the filter string, e.g. `blur(4px)`. */
  function FilterString(e: Effect): string {
    FilterName(e.kind) + "(" + IntToString(e.value) + FilterUnit(e.kind) + ")"
  }

  /** The first two letters of the filter name tell the effect type apart. */
  lemma NameTagInjective(a: EffectType, b: EffectType)
    requires |FilterName(a)| >= 2 && |FilterName(b)| >= 2
    requires FilterName(a)[0] == FilterName(b)[0] && FilterName(a)[1] == FilterName(b)[1]
    ensures a == b
  {
  }

  lemma FilterStringStart(e: Effect)
    ensures |FilterName(e.kind)| >= 2
    ensures FilterString(e)[0] == FilterName(e.kind)[0] && FilterString(e)[1] == FilterName(e.kind)[1]
  {
  }

  /** A filter string determines its effect: different effects never write the same filter. */
  lemma FilterStringIdentifies(a: Effect, b: Effect)
    requires FilterString(a) == FilterString(b)
    ensures a == b
  {
    FilterStringStart(a);
    FilterStringStart(b);
    NameTagInjective(a.kind, b.kind);
    var n, u := FilterName(a.kind), FilterUnit(a.kind);
    var ia, ib := IntToString(a.value), IntToString(b.value);
    assert FilterString(a) == n + "(" + ia + u + ")";
    assert FilterString(b) == n + "(" + ib + u + ")";
    assert |ia| == |ib|;
    Middle(n, "(", ia, u, ")");
    Middle(n, "(", ib, u, ")");
    IntToStringInjective(a.value, b.value);
  }

  /** The part after a one-element opener is recovered by slicing. */
  lemma Middle<T>(n: seq<T>, open: seq<T>, x: seq<T>, u: seq<T>, close: seq<T>)
    requires |open| == 1
    ensures (n + open + x + u + close)[|n| + 1..|n| + 1 + |x|] == x
  {
    assert n + open + x + u + close == (n + open) + (x + u + close);
  }

  /** The filter left after effects are applied in order from `filter`: each overwrites the last. */
  function AppliedFilter(filter: string, effects: seq<Effect>): (r: string)
    ensures effects == [] ==> r == filter
    ensures effects != [] ==> r == FilterString(effects[|effects| - 1])
  {
    if effects == [] then filter else FilterString(effects[|effects| - 1])
  }

  /** Applying a list then one more effect leaves that effect's filter, whatever came before. */
  lemma LastEffectWins(filter: string, effects: seq<Effect>, e: Effect)
    ensures AppliedFilter(filter, effects + [e]) == FilterString(e)
    ensures AppliedFilter(AppliedFilter(filter, effects), [e]) == AppliedFilter(filter, effects + [e])
  {
  }

  datatype ProcessingOptions = ProcessingOptions(
    fps: Option<int>, width: Option<int>, height: Option<int>, bitrate: Option<int>, loop: Option<bool>)

  datatype ProcessingSettings = ProcessingSettings(fps: int, width: int, height: int, bitrate: int, loop: bool)

  /** Destructuring defaults: only an omitted option takes its default, so an explicit 0 is kept. */
  function Resolve(o: ProcessingOptions): (s: ProcessingSettings)
    ensures s.fps == (if o.fps.Some? then o.fps.value else 30)
    ensures s.width == (if o.width.Some? then o.width.value else 1920)
    ensures s.height == (if o.height.Some? then o.height.value else 1080)
    ensures s.bitrate == (if o.bitrate.Some? then o.bitrate.value else 5000000)
    ensures s.loop == (o.loop != Some(false))
  {
    ProcessingSettings(o.fps.GetOr(30), o.width.GetOr(1920), o.height.GetOr(1080), o.bitrate.GetOr(5000000), o.loop.GetOr(true))
  }

  /** The index of the first effect of a type: `effects.find(e => e.type === type)`. */
  function FindType(effects: seq<Effect>, kind: EffectType): (r: Option<nat>)
    ensures r.Some? ==> r.value < |effects| && effects[r.value].kind == kind
    ensures r.Some? ==> forall j :: 0 <= j < r.value ==> effects[j].kind != kind
    ensures r.None? <==> forall j :: 0 <= j < |effects| ==> effects[j].kind != kind
  {
    Find(effects, (x: Effect) => x.kind == kind)
  }

  /** A blob with its MIME type and size; the GIF encoder is a stub that returns an empty one. */
  datatype Blob = Blob(mime: string, size: nat)

  class Processor {
    var effects: seq<Effect>
    var isProcessing: bool
    /** `ctx.filter`. */
    var filter: string
    var canvasWidth: int
    var canvasHeight: int
    /** The filter in force at each `drawImage` of the frame loop, in order. */
    var frames: seq<string>
    /** Tracks added to the output stream. */
    var tracks: nat

    /** A fresh canvas: 300 by 150 with no filter, no effects, not processing. */
    constructor ()
      ensures effects == [] && !isProcessing && filter == "none"
      ensures canvasWidth == 300 && canvasHeight == 150 && frames == [] && tracks == 0
    {
      effects := [];
      isProcessing := false;
      filter := "none";
      canvasWidth, canvasHeight := 300, 150;
      frames := [];
      tracks := 0;
    }

    /** `addEffect`: appended last, even when an effect of that type is already there. */
    method AddEffect(e: Effect)
      modifies this`effects
      ensures effects == old(effects) + [e]
    {
      effects := effects + [e];
    }

    /** `removeEffect`: every effect of that type goes; the others keep their order. */
    method RemoveEffect(kind: EffectType)
      modifies this`effects
      ensures effects == Filter(old(effects), (e: Effect) => e.kind != kind)
      ensures forall i :: 0 <= i < |effects| ==> effects[i].kind != kind
      ensures forall e :: e in effects <==> e in old(effects) && e.kind != kind
    {
      effects := Filter(effects, (e: Effect) => e.kind != kind);
    }

    /** `updateEffect`: only the first effect of that type takes the new value; without one nothing changes. */
    method UpdateEffect(kind: EffectType, value: int)
      modifies this`effects
      ensures |effects| == |old(effects)|
      ensures (forall j :: 0 <= j < |old(effects)| ==> old(effects)[j].kind != kind) ==> effects == old(effects)
      ensures forall i :: (0 <= i < |effects| && old(effects)[i].kind == kind &&
                           (forall j :: 0 <= j < i ==> old(effects)[j].kind != kind)) ==>
                          effects == old(effects)[i := Effect(kind, value)]
    {
      var found := FindType(effects, kind);
      if found.Some? {
        effects := effects[found.value := effects[found.value].(value := value)];
      }
    }

    method ClearEffects()
      modifies this`effects
      ensures effects == []
    {
      effects := [];
    }

    /** `applyEffects`: each effect in order overwrites the filter. */
    method ApplyEffects()
      modifies this`filter
      ensures filter == AppliedFilter(old(filter), effects)
    {
      for i := 0 to |effects|
        invariant filter == AppliedFilter(old(filter), effects[..i])
      {
        assert effects[..i + 1] == effects[..i] + [effects[i]];
        filter := FilterString(effects[i]);
      }
      assert effects[..|effects|] == effects;
    }

    /**
     * One pass of `processFrame`: nothing once processing has stopped;
     * otherwise a frame is drawn with the current filter, the effects are
     * applied (so they reach the next frame), and a track is added.
     */
    method ProcessFrame()
      modifies this`filter, this`frames, this`tracks
      ensures !old(isProcessing) ==> filter == old(filter) && frames == old(frames) && tracks == old(tracks)
      ensures old(isProcessing) ==> frames == old(frames) + [old(filter)] && tracks == old(tracks) + 1
      ensures old(isProcessing) ==> filter == AppliedFilter(old(filter), effects)
    {
      if !isProcessing {
        return;
      }
      frames := frames + [filter];
      ApplyEffects();
      tracks := tracks + 1;
    }

    /**
     * Setting the canvas size clears the drawing context's state, so the
     * filter is back to `none` whatever the effects had set.
     */
    method Resize(width: int, height: int)
      modifies this`canvasWidth, this`canvasHeight, this`filter
      ensures canvasWidth == width && canvasHeight == height && filter == "none"
    {
      canvasWidth, canvasHeight := width, height;
      filter := "none";
    }

    /**
     * `processVideo` up to its first frame: the canvas takes the resolved
     * size, which clears the filter, and processing starts.
     */
    method ProcessVideo(o: ProcessingOptions)
      modifies this`canvasWidth, this`canvasHeight, this`isProcessing, this`filter, this`frames, this`tracks
      ensures canvasWidth == Resolve(o).width && canvasHeight == Resolve(o).height && isProcessing
      ensures frames == old(frames) + ["none"] && tracks == old(tracks) + 1
      ensures filter == AppliedFilter("none", effects)
    {
      var s := Resolve(o);
      Resize(s.width, s.height);
      isProcessing := true;
      ProcessFrame();
    }

    /** `exportToGIF`: frames are captured while fewer than `fps` are held, then the (stub) encoder runs. */
    method ExportToGif(o: ProcessingOptions) returns (captured: nat, gif: Blob)
      ensures captured == if Resolve(o).fps > 0 then Resolve(o).fps else 0
      ensures gif == Blob("image/gif", 0)
    {
      var fps := Resolve(o).fps;
      captured := 0;
      while captured < fps
        invariant captured <= if fps > 0 then fps else 0
        decreases fps - captured
      {
        captured := captured + 1;
      }
      gif := Blob("image/gif", 0);
    }

    method StopProcessing()
      modifies this`isProcessing
      ensures !isProcessing
    {
      isProcessing := false;
    }

    /** `cleanup`: stops processing, clears the effects and shrinks the canvas to nothing, which clears the filter. */
    method Cleanup()
      modifies this`isProcessing, this`effects, this`canvasWidth, this`canvasHeight, this`filter
      ensures !isProcessing && effects == [] && canvasWidth == 0 && canvasHeight == 0 && filter == "none"
    {
      StopProcessing();
      ClearEffects();
      Resize(0, 0);
    }
  }

  /** After `stopProcessing`, a pending frame callback draws nothing and adds no track. */
  method StoppedFrameDrawsNothing(p: Processor)
    modifies p
    ensures p.frames == old(p.frames) && p.tracks == old(p.tracks) && !p.isProcessing
  {
    p.StopProcessing();
    p.ProcessFrame();
  }

  /**
   * The filter is applied after the draw, and starting resets it, so every
   * run's first frame is drawn with `none`, whatever effects the processor
   * holds and whatever filter an earlier run left.
   */
  method FirstFrameUnfiltered(p: Processor, o: ProcessingOptions)
    modifies p
    ensures |p.frames| == |old(p.frames)| + 1 && p.frames[|p.frames| - 1] == "none"
    ensures p.effects != [] ==> p.filter == FilterString(p.effects[|p.effects| - 1])
  {
    p.ProcessVideo(o);
  }

  /**
   * A second run with an effect in place: its first frame is unfiltered too,
   * although the first run left that effect's filter on the context.
   */
  method RerunFirstFrameUnfiltered(e: Effect) returns (p: Processor, between: string)
    ensures between == FilterString(e)
    ensures p.frames == ["none", "none"] && p.filter == FilterString(e)
  {
    p := new Processor();
    p.AddEffect(e);
    p.ProcessVideo(ProcessingOptions(None, None, None, None, None));
    between := p.filter;
    p.ProcessVideo(ProcessingOptions(None, None, None, None, None));
  }
}
