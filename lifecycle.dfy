/** The visualizer component's lifecycle (src/App.jsx): the refs and flags that
    `initialize`, the element's `onloadeddata` and `onerror` handlers, the
    per-frame callback `renderCombinedFrame`, the preset handler and the effect
    cleanup read and update.

    A ref that holds a browser or library object is modelled by whether it is
    set; the objects themselves, and every call into them, are not modelled.
    Exceptions are parameters: the message an operation throws with, or the
    setup step at which it throws. */
module Lifecycle {
  import opened Wrappers
  import Levels
  import MediaErrors
  import Controls

  /** The steps of the loadeddata setup, in source order. A step that throws
      leaves its own ref, and every later one, unassigned. */
  datatype SetupStep =
    | CreateContext     // the AudioContext
    | CreateAnalyser    // media element source and analyser node
    | CreateVisualizer  // butterchurn instance
    | LoadPresets       // connected to the analyser; preset map and keys, first preset loaded
    | CreateScene
    | CreateCamera
    | CreateRenderer
    | CreateTexture
    | CreateSphere      // geometry, shader material and mesh
    | StartLoop         // first animation frame requested

  function StepIndex(step: SetupStep): nat {
    match step
    case CreateContext => 0
    case CreateAnalyser => 1
    case CreateVisualizer => 2
    case LoadPresets => 3
    case CreateScene => 4
    case CreateCamera => 5
    case CreateRenderer => 6
    case CreateTexture => 7
    case CreateSphere => 8
    case StartLoop => 9
  }

  /** Whether a setup that throws at `failure` (None: does not throw) completes `step`. */
  predicate Completes(failure: Option<SetupStep>, step: SetupStep) {
    failure.None? || StepIndex(step) < StepIndex(failure.value)
  }

  /** The refs to the audio analyser, the visualizer and the 3D scene objects:
      each is set or null. */
  datatype Pipeline = Pipeline(
    analyser: bool, visualizer: bool,
    scene: bool, camera: bool, renderer: bool, texture: bool, sphere: bool)
  {
    /** The render callback's guard: every object it uses is present. */
    predicate Complete() {
      analyser && visualizer && scene && camera && renderer && texture && sphere
    }

    predicate Empty() {
      !analyser && !visualizer && !scene && !camera && !renderer && !texture && !sphere
    }
  }

  const NoPipeline := Pipeline(false, false, false, false, false, false, false)

  /** The pipeline refs a setup that throws at `failure` assigns. */
  function SetupPipeline(failure: Option<SetupStep>): (p: Pipeline)
    ensures p.Complete() <==> Completes(failure, CreateSphere)
    ensures p.Empty() <==> !Completes(failure, CreateAnalyser)
    // refs are assigned in order: each set ref implies that every earlier one is set
    ensures p.sphere ==> p.texture
    ensures p.texture ==> p.renderer
    ensures p.renderer ==> p.camera
    ensures p.camera ==> p.scene
    ensures p.scene ==> p.visualizer
    ensures p.visualizer ==> p.analyser
    // a failing step leaves its own ref unassigned
    ensures failure == Some(CreateAnalyser) ==> !p.analyser
    ensures failure == Some(CreateVisualizer) ==> p.analyser && !p.visualizer
    ensures failure == Some(LoadPresets) ==> p.visualizer && !p.scene
    ensures failure == Some(CreateScene) ==> p.visualizer && !p.scene
    ensures failure == Some(CreateCamera) ==> p.scene && !p.camera
    ensures failure == Some(CreateRenderer) ==> p.camera && !p.renderer
    ensures failure == Some(CreateTexture) ==> p.renderer && !p.texture
    ensures failure == Some(CreateSphere) ==> p.texture && !p.sphere
  {
    Pipeline(
      Completes(failure, CreateAnalyser), Completes(failure, CreateVisualizer),
      Completes(failure, CreateScene), Completes(failure, CreateCamera),
      Completes(failure, CreateRenderer), Completes(failure, CreateTexture),
      Completes(failure, CreateSphere))
  }

  /** The level uniforms of the sphere's shader material. */
  datatype Uniforms = Uniforms(audioLevel: real, bass: real, mid: real, treble: real)

  const ZeroUniforms := Uniforms(0.0, 0.0, 0.0, 0.0)

  predicate InLevelRange(x: real) {
    0.0 <= x <= Levels.MaxLevel
  }

  const RefsNotFound: string := "Error: Component refs not found during init."
  const NoPresetsFound: string := "No presets found."

  class Visualizer {
    /** React state: the mount and canvas refs have been seen populated. */
    var refsReady: bool
    /** isInitializedRef. */
    var initialized: bool
    /** audioElRef is set. */
    var audioElement: bool
    /** The element's onloadeddata and onerror handlers are attached. */
    var handlersAttached: bool
    /** The element's play/pause listeners are attached (they are never removed). */
    var listenersAttached: bool
    /** audioContextRef is set. */
    var audioContext: bool
    var pipeline: Pipeline
    /** animationFrameIdRef: the pending frame's handle, or null. */
    var frameId: Option<nat>
    /** smoothedBassRef, smoothedMidRef, smoothedTrebleRef. */
    var smoothedBass: real
    var smoothedMid: real
    var smoothedTreble: real
    var uniforms: Uniforms
    /** React state. */
    var isPlaying: bool
    var presetKeys: seq<string>
    var currentPresetKey: string
    var errorMessage: string

    /** The flag is set only once everything the loop needs exists and a frame
        is pending; the smoothed levels and the uniforms stay in [0, 255/128]. */
    ghost predicate Valid()
      reads this
    {
      && (frameId.Some? ==> frameId.value > 0)
      && (handlersAttached ==> audioElement)
      && (!pipeline.Empty() ==> audioContext)
      && (initialized ==> audioElement && audioContext && pipeline.Complete() && frameId.Some?)
      && InLevelRange(smoothedBass) && InLevelRange(smoothedMid) && InLevelRange(smoothedTreble)
      && InLevelRange(uniforms.audioLevel) && InLevelRange(uniforms.bass)
      && InLevelRange(uniforms.mid) && InLevelRange(uniforms.treble)
    }

    /** Every ref null, every flag false, levels 0. */
    constructor ()
      ensures Valid()
      ensures !refsReady && !initialized && !audioElement && !handlersAttached && !listenersAttached
      ensures !audioContext && pipeline == NoPipeline && frameId.None?
      ensures smoothedBass == 0.0 && smoothedMid == 0.0 && smoothedTreble == 0.0
      ensures uniforms == ZeroUniforms
      ensures !isPlaying && presetKeys == [] && currentPresetKey == "" && errorMessage == ""
    {
      refsReady, initialized := false, false;
      audioElement, handlersAttached, listenersAttached := false, false, false;
      audioContext, pipeline, frameId := false, NoPipeline, None;
      smoothedBass, smoothedMid, smoothedTreble := 0.0, 0.0, 0.0;
      uniforms := ZeroUniforms;
      isPlaying, presetKeys, currentPresetKey, errorMessage := false, [], "", "";
    }

    /** The ref-checking effect: refs are ready once the mount point and the
        hidden canvas both exist. */
    method CheckRefs(mountPresent: bool, canvasPresent: bool)
      requires Valid()
      modifies this`refsReady
      ensures Valid()
      ensures refsReady == (old(refsReady) || (mountPresent && canvasPresent))
    {
      if mountPresent && canvasPresent {
        refsReady := true;
      }
    }

    /** `initialize`: a no-op once initialised; reports missing refs; otherwise
        creates the audio element if there is none and attaches its listeners
        and handlers. A fatal error is taken to be thrown before anything is
        assigned. The flag is never set here. */
    method Initialize(refsPresent: bool, fatal: Option<string>)
      requires Valid()
      modifies this`errorMessage, this`audioElement, this`handlersAttached, this`listenersAttached
      ensures Valid()
      ensures old(initialized) ==> unchanged(this)
      ensures !old(initialized) && !refsPresent ==>
        errorMessage == RefsNotFound && unchanged(this`audioElement, this`handlersAttached, this`listenersAttached)
      ensures !old(initialized) && refsPresent && fatal.Some? ==>
        errorMessage == "Fatal Setup Error: " + fatal.value &&
        unchanged(this`audioElement, this`handlersAttached, this`listenersAttached)
      ensures !old(initialized) && refsPresent && fatal.None? ==>
        audioElement && handlersAttached && listenersAttached && errorMessage == old(errorMessage)
    {
      if initialized {
        return;
      }
      if !refsPresent {
        errorMessage := RefsNotFound;
        return;
      }
      if fatal.Some? {
        errorMessage := "Fatal Setup Error: " + fatal.value;
        // the flag is reset here, and it is already false on this path
        return;
      }
      audioElement := true;
      listenersAttached := true;
      handlersAttached := true;
    }

    /** The initialise effect: runs `initialize` when the refs are ready and the
        component is not initialised. */
    method InitEffect(refsPresent: bool, fatal: Option<string>)
      requires Valid()
      modifies this`errorMessage, this`audioElement, this`handlersAttached, this`listenersAttached
      ensures Valid()
      ensures !(old(refsReady) && !old(initialized)) ==> unchanged(this)
      ensures old(refsReady) && !old(initialized) && !refsPresent ==>
        errorMessage == RefsNotFound && unchanged(this`audioElement, this`handlersAttached, this`listenersAttached)
      ensures old(refsReady) && !old(initialized) && refsPresent && fatal.Some? ==>
        errorMessage == "Fatal Setup Error: " + fatal.value &&
        unchanged(this`audioElement, this`handlersAttached, this`listenersAttached)
      ensures old(refsReady) && !old(initialized) && refsPresent && fatal.None? ==>
        audioElement && handlersAttached && listenersAttached && errorMessage == old(errorMessage)
    {
      if refsReady && !initialized {
        Initialize(refsPresent, fatal);
      }
    }

    /** The element's `onloadeddata` handler: skipped without a handler, when
        initialised or when an audio context exists; otherwise builds the audio
        graph, the visualizer, the preset list and the 3D scene in order, and on
        success requests the first frame and only then sets the flag. A step
        that throws leaves the refs of the steps before it assigned, shows a
        setup error and resets the flag. */
    method OnLoadedData(failure: Option<SetupStep>, message: string, available: seq<string>, handle: nat)
      requires Valid()
      requires handle > 0
      modifies this`audioContext, this`pipeline, this`presetKeys, this`currentPresetKey,
        this`errorMessage, this`uniforms, this`frameId, this`initialized
      ensures Valid()
      ensures !old(handlersAttached) || old(initialized) || old(audioContext) ==> unchanged(this)
      ensures old(handlersAttached) && !old(initialized) && !old(audioContext) ==>
        && audioContext == Completes(failure, CreateContext)
        && pipeline == SetupPipeline(failure)
        && presetKeys == (if Completes(failure, LoadPresets) then available else old(presetKeys))
        // the material is created with every level uniform at 0
        && uniforms == (if Completes(failure, CreateSphere) then ZeroUniforms else old(uniforms))
        && currentPresetKey ==
          (if Completes(failure, LoadPresets) && available != [] then available[0] else old(currentPresetKey))
        // the flag is set exactly when the whole setup, loop start included, succeeds
        && initialized == failure.None?
        && frameId == (if failure.None? then Some(handle) else old(frameId))
        && (failure.Some? ==> errorMessage == "Setup Error: " + message)
        && (failure.None? && available == [] ==> errorMessage == NoPresetsFound)
        && (failure.None? && available != [] ==> errorMessage == old(errorMessage))
    {
      if !handlersAttached {
        return;
      }
      if initialized || audioContext {
        return;
      }
      // every ref is null here, so the setup assigns exactly those of the steps it completes
      audioContext := Completes(failure, CreateContext);
      pipeline := SetupPipeline(failure);
      if Completes(failure, LoadPresets) {
        presetKeys := available;
        if |available| > 0 {
          currentPresetKey := available[0];
        } else {
          errorMessage := NoPresetsFound;
        }
      }
      if Completes(failure, CreateSphere) {
        uniforms := ZeroUniforms;
      }
      if failure.None? {
        frameId := Some(handle);
        initialized := true;
      } else {
        errorMessage := "Setup Error: " + message;
        initialized := false;
      }
    }

    /** `renderCombinedFrame`, run by the browser for the pending frame. With
        the whole pipeline present it computes the band levels of the buffer,
        smooths them into the refs and the uniforms; a render error (taken to be
        thrown by the library render calls, after the uniforms are updated)
        shows a message, nulls the frame id and resets the flag. The next frame
        is requested exactly when the frame id is still set. */
    method RenderFrame(data: array<int>, failure: Option<string>, handle: nat)
      requires Valid()
      requires frameId.Some?
      requires handle > 0
      requires Levels.ByteBuffer(data[..])
      modifies this`smoothedBass, this`smoothedMid, this`smoothedTreble, this`uniforms,
        this`errorMessage, this`frameId, this`initialized
      ensures Valid()
      ensures old(pipeline.Complete()) ==>
        var s, n := data[..], data.Length;
        && smoothedBass == Levels.Smooth(old(smoothedBass), Levels.Level(s, 0, Levels.BassEnd(n)))
        && smoothedMid == Levels.Smooth(old(smoothedMid), Levels.Level(s, Levels.BassEnd(n), Levels.MidEnd(n)))
        && smoothedTreble == Levels.Smooth(old(smoothedTreble), Levels.Level(s, Levels.MidEnd(n), n))
        && uniforms == Uniforms(Levels.Overall(smoothedBass, smoothedMid, smoothedTreble),
                                smoothedBass, smoothedMid, smoothedTreble)
      ensures !old(pipeline.Complete()) ==>
        unchanged(this`smoothedBass, this`smoothedMid, this`smoothedTreble, this`uniforms)
      ensures old(pipeline.Complete()) && failure.Some? ==>
        frameId.None? && !initialized && errorMessage == "Render Error: " + failure.value
      ensures !(old(pipeline.Complete()) && failure.Some?) ==>
        frameId == Some(handle) && initialized == old(initialized) && errorMessage == old(errorMessage)
    {
      if pipeline.Complete() {
        var rawBass, rawMid, rawTreble := Levels.BandLevels(data);
        smoothedBass := Levels.Smooth(smoothedBass, rawBass);
        smoothedMid := Levels.Smooth(smoothedMid, rawMid);
        smoothedTreble := Levels.Smooth(smoothedTreble, rawTreble);
        Levels.OverallBetween(smoothedBass, smoothedMid, smoothedTreble, 0.0, Levels.MaxLevel);
        uniforms := Uniforms(Levels.Overall(smoothedBass, smoothedMid, smoothedTreble),
                             smoothedBass, smoothedMid, smoothedTreble);
        if failure.Some? {
          errorMessage := "Render Error: " + failure.value;
          frameId := None;
          initialized := false;
        }
      }
      if frameId.Some? {
        frameId := Some(handle);
      }
    }

    /** The element's `onerror` handler: shows the error's text and resets the
        flag; the render loop is not stopped. */
    method OnAudioError(error: Option<nat>)
      requires Valid()
      modifies this`errorMessage, this`initialized
      ensures Valid()
      ensures !old(handlersAttached) ==> unchanged(this)
      ensures old(handlersAttached) ==>
        errorMessage == MediaErrors.AudioErrorMessage(error) && !initialized
    {
      if handlersAttached {
        errorMessage := MediaErrors.AudioErrorMessage(error);
        initialized := false;
      }
    }

    /** The element's play, playing, pause and ended listeners mirror whether
        it is playing. */
    method OnPlaybackEvent(paused: bool)
      requires Valid()
      modifies this`isPlaying
      ensures Valid()
      ensures isPlaying == (if listenersAttached then !paused else old(isPlaying))
    {
      if listenersAttached {
        isPlaying := !paused;
      }
    }

    /** The controls for the current state. */
    function View(): (v: Controls.ControlView)
      reads this
      ensures !initialized ==> v.playDisabled && v.pauseDisabled && v.selectDisabled
    {
      Controls.View(refsReady, initialized, isPlaying, presetKeys)
    }

    /** Once initialised the visualizer exists, so a preset change is refused
        only for a key that is not listed. */
    lemma InitializedPresetChange(key: string)
      requires Valid() && initialized
      ensures Controls.PresetChange(pipeline.visualizer, presetKeys, key, initialized) ==
        if key in presetKeys then Controls.LoadPreset else Controls.RefusePreset("Preset not found")
    {
    }

    /** When the Play button is enabled, a click is never refused as "not
        ready": the element and the context exist. */
    lemma EnabledPlayIsReady(state: Controls.ContextState, paused: bool)
      requires Valid() && !View().playDisabled
      ensures Controls.PlayGuard(audioElement, audioContext, initialized, state, paused) != Controls.PlayRefused(Controls.AudioNotReady)
      ensures state != Controls.Closed ==> Controls.PlayGuard(audioElement, audioContext, initialized, state, paused).PlayPlan?
    {
    }

    /** `handlePresetChange`: loads a listed preset when the visualizer exists
        and the component is initialised; otherwise shows the first reason. A
        load that throws shows its message. */
    method ChangePreset(key: string, loadError: Option<string>)
      requires Valid()
      modifies this`currentPresetKey, this`errorMessage
      ensures Valid()
      ensures var d := Controls.PresetChange(pipeline.visualizer, presetKeys, key, initialized);
        && (d.RefusePreset? ==>
              errorMessage == Controls.PresetErrorMessage(d.reason) && currentPresetKey == old(currentPresetKey))
        && (d.LoadPreset? && loadError.Some? ==>
              errorMessage == "Preset Error: " + loadError.value && currentPresetKey == old(currentPresetKey))
        && (d.LoadPreset? && loadError.None? ==> errorMessage == "" && currentPresetKey == key)
    {
      var d := Controls.PresetChange(pipeline.visualizer, presetKeys, key, initialized);
      match d
      case LoadPreset =>
        if loadError.None? {
          currentPresetKey := key;
          errorMessage := "";
        } else {
          errorMessage := "Preset Error: " + loadError.value;
        }
      case RefusePreset(reason) =>
        errorMessage := Controls.PresetErrorMessage(reason);
    }

    /** `handlePlay`'s synchronous guard: a refusal shows its message; resuming
        the context and starting the element are asynchronous and not modelled. */
    method Play(state: Controls.ContextState, paused: bool) returns (d: Controls.PlayDecision)
      requires Valid()
      modifies this`errorMessage
      ensures Valid()
      ensures d == Controls.PlayGuard(audioElement, audioContext, initialized, state, paused)
      ensures d.PlayRefused? ==> errorMessage == d.message
      ensures d.PlayPlan? ==> errorMessage == old(errorMessage)
    {
      d := Controls.PlayGuard(audioElement, audioContext, initialized, state, paused);
      if d.PlayRefused? {
        errorMessage := d.message;
      }
    }

    /** The initialise effect's cleanup: only when initialised, cancels the
        pending frame, drops the scene, detaches the element's handlers, drops
        the element, the context, the visualizer and the analyser, and then
        clears the flag. */
    method Cleanup()
      requires Valid()
      modifies this`frameId, this`pipeline, this`audioElement, this`handlersAttached,
        this`audioContext, this`initialized
      ensures Valid()
      ensures !old(initialized) ==> unchanged(this)
      ensures old(initialized) ==>
        && !initialized && frameId.None? && !audioContext && pipeline == NoPipeline
        && !audioElement && !handlersAttached
    {
      if initialized {
        if frameId.Some? && frameId.value != 0 {
          frameId := None;
        }
        pipeline := pipeline.(renderer := false, scene := false, texture := false,
                              sphere := false, camera := false);
        if audioElement {
          handlersAttached := false;
          audioElement := false;
        }
        audioContext := false;
        pipeline := pipeline.(visualizer := false, analyser := false);
        initialized := false;
      }
    }
  }

  /** The cleanup as written skips everything when the flag is false. An audio
      error after a successful setup resets the flag, so unmounting then leaves
      the frame pending, the loop running on, and the audio context open. */
  method AudioErrorThenUnmount() returns (loopPending: bool, contextOpen: bool)
    ensures loopPending && contextOpen
  {
    var v := new Visualizer();
    v.CheckRefs(true, true);
    v.InitEffect(true, None);
    v.OnLoadedData(None, "", ["preset"], 1);
    v.OnAudioError(Some(MediaErrors.MediaErrNetwork));
    v.Cleanup();
    var data := new int[Levels.FrequencyBinCount](_ => 0);
    v.RenderFrame(data, None, 2);
    loopPending, contextOpen := v.frameId.Some?, v.audioContext;
  }

  /** Cleanup as evidently intended: release whatever setup acquired, whether
      or not the flag is still set. Every release is guarded by its ref, so it
      is harmless for refs that are already null. */
  method CleanupAcquired(v: Visualizer)
    requires v.Valid()
    modifies v`frameId, v`pipeline, v`audioElement, v`handlersAttached, v`audioContext, v`initialized
    ensures v.Valid()
    ensures !v.initialized && v.frameId.None? && !v.audioContext && v.pipeline == NoPipeline
    ensures !v.audioElement && !v.handlersAttached
  {
    v.frameId := None;
    v.pipeline := NoPipeline;
    v.handlersAttached, v.audioElement := false, false;
    v.audioContext := false;
    v.initialized := false;
  }

  /** With the intended cleanup the same sequence stops the loop and closes the
      context. */
  method AudioErrorThenUnmountAcquired() returns (loopPending: bool, contextOpen: bool)
    ensures !loopPending && !contextOpen
  {
    var v := new Visualizer();
    v.CheckRefs(true, true);
    v.InitEffect(true, None);
    v.OnLoadedData(None, "", ["preset"], 1);
    v.OnAudioError(Some(MediaErrors.MediaErrNetwork));
    CleanupAcquired(v);
    loopPending, contextOpen := v.frameId.Some?, v.audioContext;
  }
}
