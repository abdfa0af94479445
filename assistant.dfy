/**
 * The voice-assistant screen of app/assistant/page.tsx, seen through the
 * agent state string that the voice-assistant hook reports: the status line,
 * the subtitle, the corner indicator, the visualizer flags, which controls
 * are shown, and the audio level reset when the agent goes idle.
 */
module Assistant {

  const Listening: string := "listening"
  const Thinking: string := "thinking"
  const Speaking: string := "speaking"
  const Connecting: string := "connecting"
  const Disconnected: string := "disconnected"

  /** The states the screen has its own texts for; any other string falls
      through to the `default` branches. */
  predicate Known(state: string) {
    state == Listening || state == Thinking || state == Speaking || state == Connecting || state == Disconnected
  }

  /** `getStatusText`. */
  function StatusText(state: string, audioLevel: real): string {
    if state == Listening then
      (if audioLevel > 0.0 then "Listening... Keep speaking" else "Listening... Speak a bit louder")
    else if state == Thinking then "Processing your voice..."
    else if state == Speaking then "Playing response..."
    else if state == Connecting then "Connecting to DONNA..."
    else if state == Disconnected then "Tap to start speaking"
    else "Ready to listen"
  }

  /** `getSubtitleText`. */
  function SubtitleText(state: string): string {
    if state == Listening then "Speak naturally"
    else if state == Thinking then "Please wait a moment"
    else if state == Speaking then "Audio response playing"
    else if state == Connecting then "Establishing connection"
    else if state == Disconnected then "Tap the visualizer to begin"
    else "Start speaking to begin"
  }

  /** The audio level matters only while listening, and there only through
      whether it is positive. */
  lemma StatusTextUsesLevelSign(state: string, a1: real, a2: real)
    requires state != Listening || (a1 > 0.0 <==> a2 > 0.0)
    ensures StatusText(state, a1) == StatusText(state, a2)
  {
  }

  /** Different states give different status lines, so the line tells the
      user which state the agent is in; only unrecognised states share one. */
  lemma StatusTextIdentifiesState(s1: string, a1: real, s2: string, a2: real)
    requires StatusText(s1, a1) == StatusText(s2, a2)
    ensures s1 == s2 || (!Known(s1) && !Known(s2))
  {
  }

  /** The same holds for the subtitle. */
  lemma SubtitleIdentifiesState(s1: string, s2: string)
    requires SubtitleText(s1) == SubtitleText(s2)
    ensures s1 == s2 || (!Known(s1) && !Known(s2))
  {
  }

  datatype Icon = Wifi | Mic | Circle | Volume2

  /** The object `getStatusConfig` returns. */
  datatype StatusConfig = StatusConfig(color: string, bg: string, border: string, icon: Icon, text: string)

  /** `getStatusConfig`. */
  function IndicatorConfig(state: string): StatusConfig {
    if state == Connecting then
      StatusConfig("text-blue-600", "bg-blue-50", "border-blue-200", Wifi, "Connecting...")
    else if state == Listening then
      StatusConfig("text-slate-600", "bg-slate-50", "border-slate-200", Mic, "Listening")
    else if state == Thinking then
      StatusConfig("text-amber-600", "bg-amber-50", "border-amber-200", Circle, "Processing...")
    else if state == Speaking then
      StatusConfig("text-purple-600", "bg-purple-50", "border-purple-200", Volume2, "Speaking")
    else
      StatusConfig("text-gray-600", "bg-gray-50", "border-gray-200", Circle, "Ready")
  }

  /** The colour family each state is drawn in. */
  function Hue(state: string): string {
    if state == Connecting then "blue"
    else if state == Listening then "slate"
    else if state == Thinking then "amber"
    else if state == Speaking then "purple"
    else "gray"
  }

  /** Text, background and border of the indicator always use one colour
      family, in the shades 600, 50 and 200. */
  lemma IndicatorUsesOneHue(state: string)
    ensures IndicatorConfig(state).color == "text-" + Hue(state) + "-600"
    ensures IndicatorConfig(state).bg == "bg-" + Hue(state) + "-50"
    ensures IndicatorConfig(state).border == "border-" + Hue(state) + "-200"
  {
    ColorUsesHue(state);
    BgUsesHue(state);
    BorderUsesHue(state);
  }

  lemma ColorUsesHue(state: string)
    ensures IndicatorConfig(state).color == "text-" + Hue(state) + "-600"
  {
    var h := Hue(state);
    if state == Connecting {
      assert h == "blue";
    } else if state == Listening {
      assert h == "slate";
    } else if state == Thinking {
      assert h == "amber";
    } else if state == Speaking {
      assert h == "purple";
    } else {
      assert h == "gray";
    }
  }

  lemma BgUsesHue(state: string)
    ensures IndicatorConfig(state).bg == "bg-" + Hue(state) + "-50"
  {
    var h := Hue(state);
    if state == Connecting {
      assert h == "blue";
    } else if state == Listening {
      assert h == "slate";
    } else if state == Thinking {
      assert h == "amber";
    } else if state == Speaking {
      assert h == "purple";
    } else {
      assert h == "gray";
    }
  }

  lemma BorderUsesHue(state: string)
    ensures IndicatorConfig(state).border == "border-" + Hue(state) + "-200"
  {
    var h := Hue(state);
    if state == Connecting {
      assert h == "blue";
    } else if state == Listening {
      assert h == "slate";
    } else if state == Thinking {
      assert h == "amber";
    } else if state == Speaking {
      assert h == "purple";
    } else {
      assert h == "gray";
    }
  }

  /** An unrecognised state shows the idle texts and the grey "Ready" indicator;
      "disconnected" shares that indicator but has texts of its own. */
  lemma UnknownStateIsIdle(state: string, audioLevel: real)
    requires !Known(state)
    ensures StatusText(state, audioLevel) == "Ready to listen"
    ensures SubtitleText(state) == "Start speaking to begin"
    ensures IndicatorConfig(state) == IndicatorConfig(Disconnected)
    ensures IndicatorConfig(state).text == "Ready"
  {
  }

  /** The flags passed to the visualizer. */
  datatype VisualizerFlags = VisualizerFlags(isRecording: bool, isPlaying: bool, isProcessing: bool)

  function Flags(state: string): (r: VisualizerFlags)
    ensures r.isRecording <==> state == Listening
    ensures r.isPlaying <==> state == Speaking
    ensures r.isProcessing <==> state == Thinking
  {
    VisualizerFlags(state == Listening, state == Speaking, state == Thinking)
  }

  /** The three flags test three different states, so at most one is set. */
  lemma AtMostOneFlag(state: string)
    ensures !(Flags(state).isRecording && Flags(state).isPlaying)
    ensures !(Flags(state).isRecording && Flags(state).isProcessing)
    ensures !(Flags(state).isPlaying && Flags(state).isProcessing)
  {
  }

  /** `handleVisualizerClick`: the click connects only when disconnected. */
  predicate ClickConnects(state: string) {
    state == Disconnected
  }

  /** The corner indicator and the control panel wrapper are shown in every
      state but the disconnected one, connecting included. */
  predicate ShowsIndicator(state: string) {
    state != Disconnected
  }

  /** The Settings and Disconnect buttons inside the control panel. */
  predicate ShowsControls(state: string) {
    state != Disconnected && state != Connecting
  }

  /** The screen offers exactly one way forward at a time: the visualizer
      click before a connection, the controls once connected, and nothing
      while the connection is being made. */
  lemma OneWayForward(state: string)
    ensures ClickConnects(state) <==> !ShowsIndicator(state)
    ensures ShowsControls(state) ==> ShowsIndicator(state) && !ClickConnects(state)
    ensures state == Connecting ==> !ClickConnects(state) && !ShowsControls(state)
  {
  }

  /** The number of frequency bins the visualizer receives. */
  const Bins: nat := 128

  /** The audio simulation runs only while the agent listens or speaks. */
  predicate Active(state: string) {
    state == Listening || state == Speaking
  }

  /** The effect on `agentState` outside the simulated states: level 0 and
      128 zero bins. In the simulated states the values are left as they
      are (the random updates every 100 ms are not modelled). */
  function AudioAfterStateChange(state: string, level: real, freq: seq<int>): (r: (real, seq<int>))
    ensures Active(state) ==> r == (level, freq)
    ensures !Active(state) ==> r.0 == 0.0 && |r.1| == Bins && forall i :: 0 <= i < |r.1| ==> r.1[i] == 0
  {
    if Active(state) then (level, freq) else (0.0, seq(Bins, _ => 0))
  }

  /** After the agent stops speaking the level is zero, so if it then starts
      listening the first status line asks the user to speak louder. */
  lemma IdleThenListeningAsksLouder(idle: string, level: real, freq: seq<int>)
    requires !Active(idle)
    ensures StatusText(Listening, AudioAfterStateChange(idle, level, freq).0) == "Listening... Speak a bit louder"
  {
  }
}
