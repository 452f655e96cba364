/** The overlay controls of the component (src/App.jsx, the JSX and the
    playback and preset handlers): which controls are enabled, what their titles
    and options show, and the guards that decide what a click does. */
module Controls {

  /** Keys longer than this are shortened in the preset list. */
  const MaxLabelLength: nat := 40
  /** Characters of a long key kept before the ellipsis. */
  const KeptPrefix: nat := 37
  const Ellipsis: string := "..."
  const Initializing: string := "Initializing..."
  const LoadingOption: string := "Loading..."

  /** The controls wait for the component: its refs are not checked yet or the
      audio pipeline is not initialised. */
  predicate Waiting(refsReady: bool, initialized: bool) {
    !refsReady || !initialized
  }

  // ---------------------------------------------------------------------------
  // Preset labels

  /** Text of the option for a preset key. */
  function OptionLabel(key: string): (r: string)
    ensures |r| <= MaxLabelLength
    ensures |key| <= MaxLabelLength ==> r == key
    ensures |key| > MaxLabelLength ==>
      |r| == MaxLabelLength && r[..KeptPrefix] == key[..KeptPrefix] && r[KeptPrefix..] == Ellipsis
  {
    if |key| > MaxLabelLength then key[..KeptPrefix] + Ellipsis else key
  }

  /** A label is its own label: shortening never needs to be applied twice. */
  lemma OptionLabelIdempotent(key: string)
    ensures OptionLabel(OptionLabel(key)) == OptionLabel(key)
  {
  }

  /** Two long keys that share their first 37 characters get the same label. */
  lemma OptionLabelsCollide(k1: string, k2: string)
    requires |k1| > MaxLabelLength && |k2| > MaxLabelLength
    requires k1[..KeptPrefix] == k2[..KeptPrefix]
    ensures OptionLabel(k1) == OptionLabel(k2)
  {
  }

  // ---------------------------------------------------------------------------
  // What the controls show

  /** An entry of the preset select. */
  datatype SelectOption = Placeholder(text: string) | Choice(value: string, text: string)

  /** The state of the three controls. */
  datatype ControlView = ControlView(
    playDisabled: bool, playTitle: string,
    pauseDisabled: bool, pauseTitle: string,
    selectDisabled: bool, selectTitle: string,
    options: seq<SelectOption>)

  /** The entries of the preset select: a single "Loading..." placeholder while
      waiting or without keys, otherwise one choice per key in order. */
  function SelectOptions(refsReady: bool, initialized: bool, keys: seq<string>): (r: seq<SelectOption>)
    ensures Waiting(refsReady, initialized) || keys == [] ==> r == [Placeholder(LoadingOption)]
    ensures !Waiting(refsReady, initialized) && keys != [] ==>
      |r| == |keys| &&
      forall i :: 0 <= i < |keys| ==> r[i] == Choice(keys[i], OptionLabel(keys[i]))
  {
    if Waiting(refsReady, initialized) || |keys| == 0 then [Placeholder(LoadingOption)]
    else seq(|keys|, i requires 0 <= i < |keys| => Choice(keys[i], OptionLabel(keys[i])))
  }

  /** What the controls show for the component's state. */
  function View(refsReady: bool, initialized: bool, isPlaying: bool, keys: seq<string>): (v: ControlView)
    // Play and Pause are never both enabled; once ready exactly one is.
    ensures v.playDisabled || v.pauseDisabled
    ensures !Waiting(refsReady, initialized) ==> v.playDisabled != v.pauseDisabled
    ensures !v.playDisabled <==> !Waiting(refsReady, initialized) && !isPlaying
    ensures !v.pauseDisabled <==> !Waiting(refsReady, initialized) && isPlaying
    // While waiting every control is disabled and says so.
    ensures Waiting(refsReady, initialized) ==>
      v.playDisabled && v.pauseDisabled && v.selectDisabled &&
      v.playTitle == Initializing && v.pauseTitle == Initializing && v.selectTitle == Initializing &&
      v.options == [Placeholder(LoadingOption)]
    // The select needs keys too.
    ensures !v.selectDisabled <==> !Waiting(refsReady, initialized) && keys != []
    ensures v.selectDisabled <==> v.options == [Placeholder(LoadingOption)]
    ensures !Waiting(refsReady, initialized) ==>
      v.playTitle == (if isPlaying then "Playing" else "Play") &&
      v.pauseTitle == (if isPlaying then "Pause" else "Paused") &&
      v.selectTitle == "Select Preset"
  {
    var waiting := Waiting(refsReady, initialized);
    var options := SelectOptions(refsReady, initialized, keys);
    assert !waiting && keys != [] ==> options[0].Choice?;
    ControlView(
      waiting || isPlaying,
      if waiting then Initializing else if isPlaying then "Playing" else "Play",
      waiting || !isPlaying,
      if waiting then Initializing else if !isPlaying then "Paused" else "Pause",
      waiting || |keys| == 0,
      if waiting then Initializing else "Select Preset",
      options)
  }

  // ---------------------------------------------------------------------------
  // Preset change

  datatype PresetDecision = LoadPreset | RefusePreset(reason: string)

  /** Whether a selected key is loaded, and if not, the first reason that applies. */
  function PresetChange(visualizer: bool, presets: seq<string>, key: string, initialized: bool): (d: PresetDecision)
    ensures d.LoadPreset? <==> visualizer && key in presets && initialized
    ensures !visualizer ==> d == RefusePreset("Visualizer not ready")
    ensures visualizer && key !in presets ==> d == RefusePreset("Preset not found")
    ensures visualizer && key in presets && !initialized ==> d == RefusePreset("Not initialized")
  {
    if visualizer && key in presets && initialized then LoadPreset
    else RefusePreset(
      if !visualizer then "Visualizer not ready"
      else if key !in presets then "Preset not found"
      else "Not initialized")
  }

  /** The message shown after a refused change names its reason. */
  function PresetErrorMessage(reason: string): (r: string)
    ensures |r| == 14 + |reason| && r[..14] == "Preset Error: " && r[14..] == reason
  {
    "Preset Error: " + reason
  }

  // ---------------------------------------------------------------------------
  // Play and pause

  /** The state of the audio context, as the Web Audio API reports it. */
  datatype ContextState = Suspended | Running | Closed

  datatype PlayDecision =
    | PlayRefused(message: string)
      /** Resume the context first when it is suspended, then start the
          element when it is paused. */
    | PlayPlan(resume: bool, start: bool)

  const AudioNotReady: string := "Audio not ready. Please wait or refresh."
  const AudioClosed: string := "Audio system closed. Please refresh."

  /** What a click on Play does. */
  function PlayGuard(audioElement: bool, context: bool, initialized: bool,
                     state: ContextState, paused: bool): (d: PlayDecision)
    ensures d == PlayRefused(AudioNotReady) <==> !audioElement || !context || !initialized
    ensures d == PlayRefused(AudioClosed) <==> audioElement && context && initialized && state == Closed
    ensures d.PlayPlan? ==> d.resume == (state == Suspended) && d.start == paused
  {
    if !audioElement || !context || !initialized then PlayRefused(AudioNotReady)
    else if state == Closed then PlayRefused(AudioClosed)
    else PlayPlan(state == Suspended, paused)
  }

  datatype PauseDecision = PauseRefused | PausePlan(pause: bool)

  /** What a click on Pause does: nothing without an element or before
      initialisation, otherwise pause a playing element. */
  function PauseGuard(audioElement: bool, initialized: bool, paused: bool): (d: PauseDecision)
    ensures d.PauseRefused? <==> !audioElement || !initialized
    ensures d.PausePlan? ==> d.pause == !paused
  {
    if !audioElement || !initialized then PauseRefused else PausePlan(!paused)
  }
}
