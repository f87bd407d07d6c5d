/**
 * The state enums of the chat header's buttons, the fixed lookup tables indexed
 * by a state's ordinal, and the per-button render rule (object name, enabled
 * flag, tooltip) of src/widget/chatformheader.cpp.
 *
 * The enums are declared in chatformheader.h, which is not part of this model.
 * Their ordinals are fixed here as follows: CallButtonState
 * Disabled, Available, InCall, Outgoing, Incoming = 0..4; ToolButtonState
 * Disabled, Off, On = 0..2; Mode None, Audio, Video, AV = 0..3 as bit flags.
 */
module ButtonStates {

  /** Call capabilities of a conversation, as bit flags (bit 0 audio, bit 1 video). */
  datatype Mode = None | Audio | Video | AV

  /** State of the audio-call and video-call buttons. */
  datatype CallButtonState = Disabled | Available | InCall | Outgoing | Incoming

  /** State of the microphone and speaker mute buttons. */
  datatype ToolButtonState = Disabled | Off | On

  /** What a button shows: only these facets are touched by the header. */
  datatype ButtonView = ButtonView(enabled: bool, objectName: string, toolTip: string, hidden: bool)

  /** The flag value of a mode; AV is the union of Audio and Video. */
  function Bits(m: Mode): (b: bv2)
    ensures b == 0 <==> m == None
  {
    match m
    case None => 0
    case Audio => 1
    case Video => 2
    case AV => 3
  }

  /** `mode & Mode::Audio` */
  predicate HasAudio(m: Mode)
    ensures HasAudio(m) <==> m == Audio || m == AV
  {
    Bits(m) & Bits(Audio) != 0
  }

  /** `mode & Mode::Video` */
  predicate HasVideo(m: Mode)
    ensures HasVideo(m) <==> m == Video || m == AV
  {
    Bits(m) & Bits(Video) != 0
  }

  /** AV is the union of the two capability flags, which are disjoint. */
  lemma ModeFlags()
    ensures Bits(AV) == Bits(Audio) | Bits(Video)
    ensures Bits(Audio) & Bits(Video) == 0
  {
  }

  // The lookup tables, indexed by a state's ordinal.  The tooltip texts are the
  // untranslated ones; translation is not modelled.

  /** Style class tag shared by all four buttons. */
  const ObjectName: seq<string> := ["", "green", "red", "yellow", "yellow"]

  const CallToolTip: seq<string> :=
    ["Can't start audio call", "Start audio call", "End audio call", "Cancel audio call", "Accept audio call"]

  const VideoToolTip: seq<string> :=
    ["Can't start video call", "Start video call", "End video call", "Cancel video call", "Accept video call"]

  const VolToolTip: seq<string> :=
    ["Sound can be disabled only during a call", "Unmute call", "Mute call"]

  const MicToolTip: seq<string> :=
    ["Microphone can be muted only during a call", "Unmute microphone", "Mute microphone"]

  /** `static_cast<int>(state)` for a call button: always a valid index of its tables. */
  function CallIndex(s: CallButtonState): (i: nat)
    ensures i < |ObjectName| && i < |CallToolTip| && i < |VideoToolTip|
    ensures i == 0 <==> s == CallButtonState.Disabled
  {
    match s
    case Disabled => 0
    case Available => 1
    case InCall => 2
    case Outgoing => 3
    case Incoming => 4
  }

  /** `static_cast<int>(state)` for a tool button: always a valid index of its tables. */
  function ToolIndex(s: ToolButtonState): (i: nat)
    ensures i < |ObjectName| && i < |MicToolTip| && i < |VolToolTip|
    ensures i == 0 <==> s == ToolButtonState.Disabled
  {
    match s
    case Disabled => 0
    case Off => 1
    case On => 2
  }

  /** `setStateName`: object name from the shared table, enabled unless ordinal 0. */
  function SetStateName(v: ButtonView, index: nat): (r: ButtonView)
    requires index < |ObjectName|
    ensures r.enabled <==> index != 0
    ensures r.objectName == ObjectName[index]
    ensures r.toolTip == v.toolTip && r.hidden == v.hidden
  {
    v.(objectName := ObjectName[index], enabled := index != 0)
  }

  /** `setStateToolTip`: tooltip from the button's own table. */
  function SetStateToolTip(v: ButtonView, index: nat, toolTips: seq<string>): (r: ButtonView)
    requires index < |toolTips|
    ensures r.toolTip == toolTips[index]
    ensures r.enabled == v.enabled && r.objectName == v.objectName && r.hidden == v.hidden
  {
    v.(toolTip := toolTips[index])
  }

  /** A call or video button fully rendered for state `s` with tooltip table `toolTips`. */
  function CallView(v: ButtonView, s: CallButtonState, toolTips: seq<string>): (r: ButtonView)
    requires |toolTips| == |CallToolTip|
    ensures r.hidden == v.hidden
    ensures r.enabled <==> s != CallButtonState.Disabled
    ensures r.objectName == ObjectName[CallIndex(s)]
    ensures r.toolTip == toolTips[CallIndex(s)]
  {
    SetStateToolTip(SetStateName(v, CallIndex(s)), CallIndex(s), toolTips)
  }

  /** The style tag of a call button: none when disabled, green when a call can be started,
      red during a call, yellow while a call is being set up. */
  lemma CallViewStyle(v: ButtonView, s: CallButtonState, toolTips: seq<string>)
    requires |toolTips| == |CallToolTip|
    ensures var r := CallView(v, s, toolTips);
      && (r.objectName == "" <==> s == CallButtonState.Disabled)
      && (r.objectName == "green" <==> s == Available)
      && (r.objectName == "red" <==> s == InCall)
      && (r.objectName == "yellow" <==> s == Outgoing || s == Incoming)
  {
  }

  /** A mute button fully rendered for state `s` with tooltip table `toolTips`. */
  function ToolView(v: ButtonView, s: ToolButtonState, toolTips: seq<string>): (r: ButtonView)
    requires |toolTips| == |MicToolTip|
    ensures r.hidden == v.hidden
    ensures r.enabled <==> s != ToolButtonState.Disabled
    ensures r.objectName == ObjectName[ToolIndex(s)]
    ensures r.toolTip == toolTips[ToolIndex(s)]
  {
    SetStateToolTip(SetStateName(v, ToolIndex(s)), ToolIndex(s), toolTips)
  }

  /** The style tag of a mute button: none when disabled, green when off, red when on. */
  lemma ToolViewStyle(v: ButtonView, s: ToolButtonState, toolTips: seq<string>)
    requires |toolTips| == |MicToolTip|
    ensures var r := ToolView(v, s, toolTips);
      && (r.objectName == "" <==> s == ToolButtonState.Disabled)
      && (r.objectName == "green" <==> s == Off)
      && (r.objectName == "red" <==> s == On)
  {
  }

  /** The rendered view of a call button identifies its state: no two states look alike. */
  lemma CallViewDeterminesState(v: ButtonView, w: ButtonView, s: CallButtonState, t: CallButtonState)
    requires CallView(v, s, CallToolTip).toolTip == CallView(w, t, CallToolTip).toolTip
             || CallView(v, s, VideoToolTip).toolTip == CallView(w, t, VideoToolTip).toolTip
    ensures s == t
  {
  }

  /** The rendered view of a mute button identifies its state. */
  lemma ToolViewDeterminesState(v: ButtonView, w: ButtonView, s: ToolButtonState, t: ToolButtonState)
    requires ToolView(v, s, MicToolTip) == ToolView(w, t, MicToolTip)
             || ToolView(v, s, VolToolTip) == ToolView(w, t, VolToolTip)
    ensures s == t
  {
  }
}
