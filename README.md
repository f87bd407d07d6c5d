# Chat header button-state model (qTox `ChatFormHeader`)

This project models the button-state machine of qTox's chat header bar,
`ChatFormHeader` in `src/widget/chatformheader.cpp`. The header holds a
capability mode (None, Audio, Video, AV as bit flags). It also holds a state for
each of its four buttons. The audio-call and video-call buttons use a
`CallButtonState` (Disabled, Available, InCall, Outgoing, Incoming). The
microphone and speaker mute buttons use a `ToolButtonState` (Disabled, Off, On).
Besides these it keeps the name label's text and at most one call-confirmation
overlay. The constructor, `updateCallButtons`, `updateMuteMicButton`,
`updateMuteVolButton` and `showOutgoingCall` end by re-rendering the four
buttons. `setName`, `setMode`, `showCallConfirm`, `removeCallConfirm` and the
name-edit slot do not re-render. Re-rendering looks up each button's enabled
flag, style-class name and tooltip in fixed tables, by the ordinal of its state.

Files:

- `wrappers.dfy`: the `Option` type used for the single overlay slot.
- `button_states.dfy` (module `ButtonStates`): the enums, the mode flags, the
  lookup tables, the ordinals and the per-button render rule.
- `header_spec.dfy` (module `HeaderSpec`): the header's observable state as a
  value (`HeaderState`) and one transition per operation (`Step`). It also
  holds properties of single operations. Finally, by induction over `Run`, it
  proves properties of every sequence of operations.
- `chat_form_header.dfy` (module `ChatForm`): the class `ChatFormHeader`. Its
  fields are updated in place by methods that follow the source's branches.
  Each public method ends in `Step(old(Model()), op)` and keeps the object
  invariant `HeaderSpec.Inv`. That invariant says three things: the views match
  the stored states, the buttons are hidden together, and the two call buttons
  are never both InCall.

Assumptions and modelling decisions:

- The enums are declared in `src/widget/chatformheader.h`, which is not part of
  this model. Their ordinals are fixed as follows. CallButtonState:
  Disabled=0, Available=1, InCall=2, Outgoing=3, Incoming=4. ToolButtonState:
  Disabled=0, Off=1, On=2. Mode: None=0, Audio=1, Video=2, AV=3. Disabled must
  be 0 because a button is enabled exactly when its ordinal is not 0
  (chatformheader.cpp:182). The tooltip tables give the order of the other
  values.
- The mute buttons index the five-entry `ObjectName` table with ordinals 0..2.
  So Off is styled "green" and On is styled "red".
- Under this order a muted microphone (state On) shows the tooltip at index 2,
  "Mute microphone". The model reproduces the tables as written.
- Tooltips are the untranslated texts of the tables.
- A button is modelled by what the header sets on it: enabled flag, object
  name, tooltip and hidden flag. A freshly created button is enabled, with no
  name or tooltip, and shown.
- Emitted signals are appended to a ghost event log. The overlay's accepted and
  rejected outcomes are forwarded only while an overlay is alive, because
  replacing or removing the overlay destroys the old one.
- No operation in this file sets a button to Incoming. The model therefore never
  reaches Incoming, although the render rule covers it.

## Model

| member | source | states |
|---|---|---|
| `ButtonStates.Bits` | src/widget/chatformheader.cpp:218-219 | only the None mode has no capability bit set |
| `ButtonStates.HasAudio` | src/widget/chatformheader.cpp:218 | the test `mode & Mode::Audio` holds exactly for Audio and AV |
| `ButtonStates.HasVideo` | src/widget/chatformheader.cpp:219 | the test `mode & Mode::Video` holds exactly for Video and AV |
| `ButtonStates.ModeFlags` | src/widget/chatformheader.cpp:218-219 | the AV flags are the union of the Audio and Video flags, and those two share no bit |
| `ButtonStates.CallIndex` | src/widget/chatformheader.cpp:177-182 | a call state's ordinal is always in bounds of the object-name table and of both call tooltip tables, and it is 0 exactly for Disabled |
| `ButtonStates.ToolIndex` | src/widget/chatformheader.cpp:162-167 | a mute state's ordinal is always in bounds of the object-name table and of both mute tooltip tables, and it is 0 exactly for Disabled |
| `ButtonStates.SetStateName` | src/widget/chatformheader.cpp:177-183 | the button is enabled iff the ordinal is not 0 and takes the object-name table entry at the ordinal; its tooltip and hidden flag are kept |
| `ButtonStates.SetStateToolTip` | src/widget/chatformheader.cpp:162-167 | the button takes its own table's tooltip at the ordinal; its enabled flag, object name and hidden flag are kept |
| `ButtonStates.CallView` | src/widget/chatformheader.cpp:43-65 | a rendered call button is enabled iff its state is not Disabled; its object name and tooltip are the table entries at its state's ordinal; its hidden flag is kept |
| `ButtonStates.ToolView` | src/widget/chatformheader.cpp:67-77 | a rendered mute button is enabled iff its state is not Disabled; its object name and tooltip are the table entries at its state's ordinal; its hidden flag is kept |
| `ButtonStates.CallViewStyle` | src/widget/chatformheader.cpp:43-49 | a call button's style tag is empty iff Disabled, green iff Available, red iff InCall, and yellow iff Outgoing or Incoming |
| `ButtonStates.ToolViewStyle` | src/widget/chatformheader.cpp:43-49 | a mute button's style tag is empty iff Disabled, green iff Off, and red iff On |
| `ButtonStates.CallViewDeterminesState` | src/widget/chatformheader.cpp:51-65 | two call-button states with the same tooltip are the same state, for both the audio and the video table |
| `ButtonStates.ToolViewDeterminesState` | src/widget/chatformheader.cpp:67-77 | two mute-button states that render identically are the same state, for both the microphone and the speaker table |
| `HeaderSpec.CallStateFor` | src/widget/chatformheader.cpp:220-228 | the audio button is Disabled iff audio is unavailable or a video call is on; InCall iff available, no video call and an audio call; Available iff available and no call; never Outgoing or Incoming |
| `HeaderSpec.VideoStateFor` | src/widget/chatformheader.cpp:230-238 | the video button is Disabled iff video is unavailable or an audio-only call is on; InCall iff available and a video call; Available iff available and no call; never Outgoing or Incoming |
| `HeaderSpec.ToolStateFor` | src/widget/chatformheader.cpp:246-250 | a mute button is Disabled iff not active, whatever the mute flag; otherwise On iff muted and Off iff not muted |
| `HeaderSpec.Retranslate` | src/widget/chatformheader.cpp:169-175 | every button's tooltip becomes its table's entry at its state's ordinal; every other facet of every button, and every stored field, is kept |
| `HeaderSpec.Render` | src/widget/chatformheader.cpp:185-193 | afterwards all four views agree with the stored states; no stored state and no hidden flag changes |
| `HeaderSpec.ApplyMode` | src/widget/chatformheader.cpp:151-160 | the mode is stored; mode None sets the four hidden flags and changes nothing else; any other mode changes nothing else |
| `HeaderSpec.Step` | src/widget/chatformheader.cpp:144-298 | the effect of each public operation; only `setMode` changes the mode, no operation clears a hidden flag, and the signal log only grows, by at most one signal |
| `HeaderSpec.Initial` | src/widget/chatformheader.cpp:93-140 | a new header has mode AV, an empty name, no overlay, no signal emitted, and all four buttons disabled and shown |
| `HeaderSpec.InitialState` | src/widget/chatformheader.cpp:93-140 | the new header satisfies the invariant |
| `HeaderSpec.RenderIdempotent` | src/widget/chatformheader.cpp:185-193 | re-rendering a rendered header changes nothing; rendering twice equals rendering once |
| `HeaderSpec.UpdateCallButtonsTable` | src/widget/chatformheader.cpp:216-241 | `updateCallButtons` follows the precedence table for both buttons, gated by online and the mode bits; the two buttons are never both InCall; neither is Outgoing or Incoming; only the two call states and the views change |
| `HeaderSpec.UpdateMuteMicEffect` | src/widget/chatformheader.cpp:243-253 | a microphone update gives Disabled iff not active, and On iff active and muted; the button is enabled iff active; among the stored fields only the microphone state changes; all four hidden flags are kept |
| `HeaderSpec.UpdateMuteVolEffect` | src/widget/chatformheader.cpp:255-265 | a speaker update gives Disabled iff not active, and On iff active and muted; the button is enabled iff active; among the stored fields only the speaker state changes; all four hidden flags are kept |
| `HeaderSpec.ShowOutgoingCallTargets` | src/widget/chatformheader.cpp:195-200 | `showOutgoingCall` sets exactly the targeted state to Outgoing (styled yellow); the other three states and the mode are unchanged |
| `HeaderSpec.CallConfirmSlot` | src/widget/chatformheader.cpp:202-214 | from any state, `showCallConfirm(video)` leaves exactly one overlay, anchored to the video button if `video` and else to the call button, and changes nothing else; `removeCallConfirm` empties the slot and changes nothing else; removing twice equals removing once |
| `HeaderSpec.NameEditedEffect` | src/widget/chatformheader.cpp:292-298 | an empty edit leaves the whole state unchanged and emits nothing; a non-empty edit sets the label text, leaves its tooltip, and emits nameChanged(name) exactly once |
| `HeaderSpec.RunKeepsHidden` | src/widget/chatformheader.cpp:151-160 | once all buttons are hidden, they stay hidden after any sequence of operations |
| `HeaderSpec.ModeNoneHidesForever` | src/widget/chatformheader.cpp:154-159 | after `setMode(None)`, all four buttons are hidden after any later sequence of operations |
| `HeaderSpec.RenderInv` | src/widget/chatformheader.cpp:185-193 | rendering a header whose buttons are hidden together and whose call buttons are not both InCall yields a header satisfying the invariant |
| `HeaderSpec.HideKeepsRendered` | src/widget/chatformheader.cpp:154-159 | hiding the buttons keeps their views matching the states |
| `HeaderSpec.CallButtonsPreserveInv` | src/widget/chatformheader.cpp:216-241 | `updateCallButtons` keeps the invariant |
| `HeaderSpec.MuteMicPreservesInv` | src/widget/chatformheader.cpp:243-253 | `updateMuteMicButton` keeps the invariant |
| `HeaderSpec.MuteVolPreservesInv` | src/widget/chatformheader.cpp:255-265 | `updateMuteVolButton` keeps the invariant |
| `HeaderSpec.OutgoingCallPreservesInv` | src/widget/chatformheader.cpp:195-200 | `showOutgoingCall` keeps the invariant |
| `HeaderSpec.StepPreservesInv` | src/widget/chatformheader.cpp:144-298 | every operation keeps the views matching the states, the buttons hidden together, and the two call buttons not both InCall |
| `HeaderSpec.RunPreservesInv` | src/widget/chatformheader.cpp:144-298 | any sequence of operations keeps that invariant |
| `HeaderSpec.Reachable` | src/widget/chatformheader.cpp:93-140 | every state reachable from construction satisfies the invariant |
| `ChatForm.ChatFormHeader.constructor` | src/widget/chatformheader.cpp:93-140 | the new object is the initial state: mode AV and four disabled buttons |
| `ChatForm.ChatFormHeader.SetName` | src/widget/chatformheader.cpp:144-149 | the label text and its tooltip become the new name; nothing else changes |
| `ChatForm.ChatFormHeader.SetMode` | src/widget/chatformheader.cpp:151-160 | stores the mode and, for None, hides all four buttons; the invariant is kept |
| `ChatForm.ChatFormHeader.RetranslateUi` | src/widget/chatformheader.cpp:169-175 | resets every tooltip from its table; on a valid header this changes nothing |
| `ChatForm.ChatFormHeader.UpdateButtonsView` | src/widget/chatformheader.cpp:185-193 | the new state is the re-rendered old state |
| `ChatForm.ChatFormHeader.ShowOutgoingCall` | src/widget/chatformheader.cpp:195-200 | the targeted state becomes Outgoing and the buttons are re-rendered |
| `ChatForm.ChatFormHeader.ShowCallConfirm` | src/widget/chatformheader.cpp:202-209 | the overlay slot holds exactly one overlay, anchored to the targeted button |
| `ChatForm.ChatFormHeader.RemoveCallConfirm` | src/widget/chatformheader.cpp:211-214 | the overlay slot becomes empty |
| `ChatForm.ChatFormHeader.ForwardCallAccepted` | src/widget/chatformheader.cpp:207 | a live overlay's acceptance appends callAccepted to the signal log |
| `ChatForm.ChatFormHeader.ForwardCallRejected` | src/widget/chatformheader.cpp:208 | a live overlay's rejection appends callRejected to the signal log |
| `ChatForm.ChatFormHeader.UpdateCallButtons` | src/widget/chatformheader.cpp:216-241 | both call states follow the precedence rule and the buttons are re-rendered; the invariant is kept |
| `ChatForm.ChatFormHeader.UpdateMuteMicButton` | src/widget/chatformheader.cpp:243-253 | sets the microphone state and re-renders; the direct enable at line 245 agrees with the rendered flag |
| `ChatForm.ChatFormHeader.UpdateMuteVolButton` | src/widget/chatformheader.cpp:255-265 | sets the speaker state and re-renders; the direct enable at line 257 agrees with the rendered flag |
| `ChatForm.ChatFormHeader.OnNameChanged` | src/widget/chatformheader.cpp:292-298 | a non-empty edit sets the label text and emits nameChanged once; an empty edit changes nothing |

## Left out

- Layout construction, spacing and size constants, `createButton`, style-sheet loading, `Style::repolish` and `setFixedSize`: Qt plumbing with no state of the header's own (chatformheader.cpp:35-40, 81-91, 101-138, 192).
- The buttons' `clicked` connections to the header's `micMuteToggle`, `volMuteToggle`, `callTriggered` and `videoCallTriggered` signals (lines 116-119): signal wiring, not header state.
- `setAvatar` and `getAvatarSize`: pixmap and geometry queries on a foreign widget.
- `addWidget`, `addLayout` and `addStretch`: they only forward to a Qt layout.
- Translation: `tr()` and `Translator::registerHandler`. Tooltips are the untranslated table texts. `RetranslateUi` is modelled as a method that can be called at any time.
- `SetName`: `Qt::convertFromPlainText` is a foreign call, so the name tooltip is modelled as the raw name.
- `CallConfirmWidget` internals and `show()`: the overlay is modelled only as the button it is anchored to.
- Signal/slot connection mechanics: emitted signals are modelled as appends to a ghost log.
