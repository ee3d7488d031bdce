/**
 * The editor hook: its state, the three reducers that update one field each,
 * and `processVideo`, which runs the trim, background and export stages on
 * the fetched video, choosing which stages to run from the state.
 *
 * The fetch and the three processing calls are outside the model: their
 * results are symbolic (`Media` terms that record what was applied), and the
 * stage that fails, if any, is an argument.
 */
module VideoEditorHook {
  import opened Common
  import opened BackgroundPanel

  datatype OutputFormat = Mp4 | Gif
  datatype Resolution = R1080p | R720p | R480p
  datatype Quality = High | Medium | Low

  datatype EditorState = EditorState(
    videoSrc: string,
    duration: real,
    trimRange: (real, real),
    background: Background,
    smartFeatures: map<string, bool>,
    isProcessing: bool)

  /** The state the hook starts from. */
  function Initial(src: string, duration: real): (s: EditorState)
    ensures s.videoSrc == src && s.duration == duration && s.trimRange == (0.0, duration)
    ensures s.background == Background(Color, "linear-gradient(to right, #4facfe 0%, #00f2fe 100%)", 0, 0)
    ensures s.smartFeatures == map[] && !s.isProcessing
  {
    EditorState(src, duration, (0.0, duration),
      Background(Color, "linear-gradient(to right, #4facfe 0%, #00f2fe 100%)", 0, 0), map[], false)
  }

  /** The hook's initial background is the panel's first gradient. */
  lemma InitialBackgroundIsFirstGradient(src: string, duration: real)
    ensures Emitted(Gradients, "gradient1", 0, 0) == Some(Initial(src, duration).background)
  {
    SelectionFound(Gradients, Gradients, 0, 0, 0);
  }

  /** `setTrimRange`: the range becomes `[start, end]`; nothing else changes. */
  function SetTrimRange(s: EditorState, start: real, end: real): (r: EditorState)
    ensures r.trimRange == (start, end)
    ensures r.(trimRange := s.trimRange) == s
  {
    s.(trimRange := (start, end))
  }

  /** `setBackground`: the background is replaced; nothing else changes. */
  function SetBackground(s: EditorState, background: Background): (r: EditorState)
    ensures r.background == background
    ensures r.(background := s.background) == s
  {
    s.(background := background)
  }

  /** `toggleSmartFeature`: the named feature takes the flag; every other feature is kept. */
  function ToggleSmartFeature(s: EditorState, feature: string, enabled: bool): (r: EditorState)
    ensures feature in r.smartFeatures && r.smartFeatures[feature] == enabled
    ensures r.smartFeatures.Keys == s.smartFeatures.Keys + {feature}
    ensures forall f :: f in s.smartFeatures && f != feature ==> r.smartFeatures[f] == s.smartFeatures[f]
    ensures r.(smartFeatures := s.smartFeatures) == s
  {
    s.(smartFeatures := s.smartFeatures[feature := enabled])
  }

  /** Toggling a feature on and then off leaves it present and off, whatever it was before. */
  lemma ToggleOnOff(s: EditorState, feature: string)
    ensures ToggleSmartFeature(ToggleSmartFeature(s, feature, true), feature, false) == ToggleSmartFeature(s, feature, false)
  {
    assert s.smartFeatures[feature := true][feature := false] == s.smartFeatures[feature := false];
  }

  /** A video as the stages leave it: what was fetched and what was applied, in order. */
  datatype Media =
    | Fetched(src: string)
    | Trimmed(input: Media, start: real, end: real)
    | WithBackground(input: Media, value: string, blur: int, dim: int)
    | Exported(input: Media, format: OutputFormat, resolution: Resolution, quality: Quality)

  /** The external calls, in the order `processVideo` makes them. */
  datatype Stage = Fetch | Trim | ApplyBackground | Export

  /** The trim stage runs when the range does not cover the whole video. */
  predicate NeedsTrim(s: EditorState) {
    s.trimRange.0 > 0.0 || s.trimRange.1 < s.duration
  }

  /** The background stage runs when there is blur or dimming to apply. */
  predicate NeedsBackground(s: EditorState) {
    s.background.blur > 0 || s.background.dim > 0
  }

  /** The stages `processVideo` runs for a state, in order. */
  function Stages(s: EditorState): (r: seq<Stage>)
    ensures |r| >= 2 && r[0] == Fetch && r[|r| - 1] == Export
  {
    [Fetch] + (if NeedsTrim(s) then [Trim] else []) + (if NeedsBackground(s) then [ApplyBackground] else []) + [Export]
  }

  /** The trim stage runs exactly when the range is narrower than the video, the background stage exactly when there is blur or dim. */
  lemma StagesChosen(s: EditorState)
    ensures Trim in Stages(s) <==> NeedsTrim(s)
    ensures ApplyBackground in Stages(s) <==> NeedsBackground(s)
    ensures |Stages(s)| == 2 + (if NeedsTrim(s) then 1 else 0) + (if NeedsBackground(s) then 1 else 0)
  {
  }

  /** The video the export stage is given. */
  function Processed(s: EditorState): Media {
    var fetched := Fetched(s.videoSrc);
    var trimmed := if NeedsTrim(s) then Trimmed(fetched, s.trimRange.0, s.trimRange.1) else fetched;
    if NeedsBackground(s) then WithBackground(trimmed, s.background.value, s.background.blur, s.background.dim)
    else trimmed
  }

  /** The stages applied to a video, innermost first. */
  function Applied(m: Media): seq<Stage> {
    match m {
      case Fetched(_) => [Fetch]
      case Trimmed(input, _, _) => Applied(input) + [Trim]
      case WithBackground(input, _, _, _) => Applied(input) + [ApplyBackground]
      case Exported(input, _, _, _) => Applied(input) + [Export]
    }
  }

  /**
   * The exported video went through exactly the stages `processVideo` runs,
   * in that order: the background is applied to the trimmed video and the
   * export comes last, applied to the latest result.
   */
  lemma ProcessedFollowsStages(s: EditorState, format: OutputFormat, resolution: Resolution, quality: Quality)
    ensures Applied(Exported(Processed(s), format, resolution, quality)) == Stages(s)
  {
    var fetched := Fetched(s.videoSrc);
    var trimmed := if NeedsTrim(s) then Trimmed(fetched, s.trimRange.0, s.trimRange.1) else fetched;
    assert Applied(trimmed) == [Fetch] + (if NeedsTrim(s) then [Trim] else []);
    assert Processed(s) == if NeedsBackground(s) then WithBackground(trimmed, s.background.value, s.background.blur, s.background.dim) else trimmed;
  }

  /** A range covering the whole video and no blur or dim: the source is exported as it is. */
  lemma NothingToApply(s: EditorState)
    requires s.trimRange.0 <= 0.0 && s.trimRange.1 >= s.duration
    requires s.background.blur <= 0 && s.background.dim <= 0
    ensures Stages(s) == [Fetch, Export]
    ensures Processed(s) == Fetched(s.videoSrc)
  {
  }

  /** The result of `processVideo`: the export of the processed video, or the first stage that failed. */
  function ProcessResult(s: EditorState, format: OutputFormat, resolution: Resolution, quality: Quality, failing: set<Stage>): (r: Result<Media, Stage>)
    ensures r.Err? <==> exists i :: 0 <= i < |Stages(s)| && Stages(s)[i] in failing
    ensures r.Ok? ==> r.value == Exported(Processed(s), format, resolution, quality)
  {
    var stages := Stages(s);
    var k := FirstFailing(stages, failing);
    if k < |stages| then Err(stages[k]) else Ok(Exported(Processed(s), format, resolution, quality))
  }

  /** The index of the first stage that fails, or the number of stages when none does. */
  function FirstFailing(stages: seq<Stage>, failing: set<Stage>): (k: nat)
    ensures k <= |stages|
    ensures k < |stages| ==> stages[k] in failing
    ensures forall i :: 0 <= i < k ==> stages[i] !in failing
  {
    if stages == [] then 0
    else if stages[0] in failing then 0
    else 1 + FirstFailing(stages[1..], failing)
  }

  /** The calls `processVideo` makes: its stages up to and including the first that fails. */
  function Attempted(s: EditorState, failing: set<Stage>): (r: seq<Stage>)
    ensures r <= Stages(s) && r != []
    ensures forall i :: 0 <= i < |r| - 1 ==> r[i] !in failing
    ensures r == Stages(s) || r[|r| - 1] in failing
  {
    var stages := Stages(s);
    var k := FirstFailing(stages, failing);
    if k < |stages| then stages[..k + 1] else stages
  }

  /** When stage `k` is the first to fail, `processVideo` reports it and makes no call after it. */
  lemma StopsAt(s: EditorState, format: OutputFormat, resolution: Resolution, quality: Quality, failing: set<Stage>, k: nat)
    requires k < |Stages(s)| && Stages(s)[k] in failing
    requires forall i :: 0 <= i < k ==> Stages(s)[i] !in failing
    ensures ProcessResult(s, format, resolution, quality, failing) == Err(Stages(s)[k])
    ensures Attempted(s, failing) == Stages(s)[..k + 1]
  {
    var f := FirstFailing(Stages(s), failing);
    assert !(f < k) && !(k < f);
  }

  /** When no stage fails, `processVideo` calls every stage and returns the exported video. */
  lemma RunsThrough(s: EditorState, format: OutputFormat, resolution: Resolution, quality: Quality, failing: set<Stage>)
    requires forall i :: 0 <= i < |Stages(s)| ==> Stages(s)[i] !in failing
    ensures ProcessResult(s, format, resolution, quality, failing) == Ok(Exported(Processed(s), format, resolution, quality))
    ensures Attempted(s, failing) == Stages(s)
  {
    var f := FirstFailing(Stages(s), failing);
    assert !(f < |Stages(s)|);
  }

  /** Where each stage sits in the list: fetch first, then trim and background when chosen, export last. */
  lemma StagePositions(s: EditorState)
    ensures var t := if NeedsTrim(s) then 1 else 0;
      var b := if NeedsBackground(s) then 1 else 0;
      |Stages(s)| == 2 + t + b && Stages(s)[0] == Fetch &&
      (NeedsTrim(s) ==> Stages(s)[1] == Trim) &&
      (NeedsBackground(s) ==> Stages(s)[1 + t] == ApplyBackground) &&
      Stages(s)[1 + t + b] == Export
  {
  }

  /** One more call extends the record by the next stage. */
  lemma CallsExtend(c0: seq<Stage>, stages: seq<Stage>, n: nat)
    requires n < |stages|
    ensures c0 + stages[..n] + [stages[n]] == c0 + stages[..n + 1]
  {
    assert stages[..n + 1] == stages[..n] + [stages[n]];
  }

  /**
   * The hook's state. `calls` records the external calls made, the
   * specification of what happens between the two state updates.
   */
  class Hook {
    var state: EditorState
    ghost var calls: seq<Stage>

    constructor (src: string, duration: real)
      ensures state == Initial(src, duration) && calls == []
    {
      state := Initial(src, duration);
      calls := [];
    }

    /** One external call, made while processing is marked; it either gives back a result or throws. */
    method Call(stage: Stage, failing: set<Stage>) returns (ok: bool)
      requires state.isProcessing
      modifies this`calls
      ensures ok <==> stage !in failing
      ensures calls == old(calls) + [stage]
    {
      calls := calls + [stage];
      ok := stage !in failing;
    }

    /**
     * `processVideo`: marks processing, runs the chosen stages, and clears
     * the mark after success and after failure alike. The stages see the
     * state as it was when the call began.
     */
    method ProcessVideo(format: OutputFormat, resolution: Resolution, quality: Quality, failing: set<Stage>)
      returns (r: Result<Media, Stage>)
      modifies this`state, this`calls
      ensures r == ProcessResult(old(state), format, resolution, quality, failing)
      ensures state == old(state).(isProcessing := false)
      ensures calls == old(calls) + Attempted(old(state), failing)
    {
      var s := state;
      state := state.(isProcessing := true);
      r := RunStages(s, format, resolution, quality, failing);
      state := state.(isProcessing := false);
    }

    /** The `try` block: fetch, then trim and background when needed, then export, stopping at the first failure. */
    method RunStages(s: EditorState, format: OutputFormat, resolution: Resolution, quality: Quality, failing: set<Stage>)
      returns (r: Result<Media, Stage>)
      requires state.isProcessing
      modifies this`calls
      ensures r == ProcessResult(s, format, resolution, quality, failing)
      ensures calls == old(calls) + Attempted(s, failing)
    {
      ghost var stages := Stages(s);
      ghost var c0 := calls;
      ghost var t := if NeedsTrim(s) then 1 else 0;
      ghost var b := if NeedsBackground(s) then 1 else 0;
      StagePositions(s);
      assert c0 + stages[..0] == c0;
      CallsExtend(c0, stages, 0);
      var ok := Call(Fetch, failing);
      assert calls == c0 + stages[..1];
      if !ok {
        StopsAt(s, format, resolution, quality, failing, 0);
        return Err(Fetch);
      }
      assert Fetch !in failing;
      var processed := Fetched(s.videoSrc);
      if NeedsTrim(s) {
        CallsExtend(c0, stages, 1);
        ok := Call(Trim, failing);
        assert calls == c0 + stages[..2];
        if !ok {
          StopsAt(s, format, resolution, quality, failing, 1);
          return Err(Trim);
        }
        processed := Trimmed(processed, s.trimRange.0, s.trimRange.1);
      }
      assert calls == c0 + stages[..1 + t];
      assert forall i :: 0 <= i < 1 + t ==> stages[i] !in failing;
      if NeedsBackground(s) {
        CallsExtend(c0, stages, 1 + t);
        ok := Call(ApplyBackground, failing);
        assert calls == c0 + stages[..2 + t];
        if !ok {
          StopsAt(s, format, resolution, quality, failing, 1 + t);
          return Err(ApplyBackground);
        }
        processed := WithBackground(processed, s.background.value, s.background.blur, s.background.dim);
      }
      assert calls == c0 + stages[..1 + t + b];
      assert forall i :: 0 <= i < 1 + t + b ==> stages[i] !in failing;
      assert processed == Processed(s);
      CallsExtend(c0, stages, 1 + t + b);
      ok := Call(Export, failing);
      assert calls == c0 + stages[..2 + t + b];
      if !ok {
        StopsAt(s, format, resolution, quality, failing, 1 + t + b);
        return Err(Export);
      }
      assert stages[..|stages|] == stages;
      RunsThrough(s, format, resolution, quality, failing);
      r := Ok(Exported(processed, format, resolution, quality));
    }
  }
}
