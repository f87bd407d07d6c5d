/**
 * ChatFormHeader (src/widget/chatformheader.cpp) as a class whose fields the
 * operations update in place.  Each button is represented by what it shows
 * (a ButtonView); the overlay by the button it is anchored to; emitted signals
 * by a ghost log.  Every public operation ends in exactly the state that
 * HeaderSpec.Step prescribes and keeps the object invariant HeaderSpec.Inv.
 */
module ChatForm {
  import opened ButtonStates
  import opened Wrappers
  import opened HeaderSpec

  class ChatFormHeader {
    var mode: Mode
    var callState: CallButtonState
    var videoState: CallButtonState
    var volState: ToolButtonState
    var micState: ToolButtonState

    var callButton: ButtonView
    var videoButton: ButtonView
    var micButton: ButtonView
    var volButton: ButtonView

    var nameText: string
    var nameToolTip: string

    /** The single confirmation overlay, if one is alive. */
    var callConfirm: Option<Anchor>

    /** Signals emitted so far, oldest first. */
    ghost var events: seq<Event>

    ghost function Model(): HeaderState
      reads this
    {
      HeaderState(mode, callState, videoState, micState, volState,
                  callButton, videoButton, micButton, volButton,
                  nameText, nameToolTip, callConfirm, events)
    }

    ghost predicate Valid()
      reads this
    {
      Inv(Model())
    }

    constructor()
      ensures Valid() && Model() == Initial()
      ensures mode == AV && !callButton.enabled && !videoButton.enabled
      ensures !micButton.enabled && !volButton.enabled
    {
      mode := AV;
      callState := CallButtonState.Disabled;
      videoState := CallButtonState.Disabled;
      volState := ToolButtonState.Disabled;
      micState := ToolButtonState.Disabled;
      callButton, videoButton, micButton, volButton := FreshButton, FreshButton, FreshButton, FreshButton;
      nameText, nameToolTip := "", "";
      callConfirm := Option.None;
      events := [];
      new;
      UpdateButtonsView();
      InitialState();
    }

    method SetName(newName: string)
      requires Valid()
      modifies this
      ensures Valid() && Model() == Step(old(Model()), Op.SetName(newName))
    {
      nameText := newName;
      nameToolTip := newName;
    }

    method SetMode(m: Mode)
      requires Valid()
      modifies this
      ensures Valid() && Model() == Step(old(Model()), Op.SetMode(m))
      ensures m == Mode.None ==> AllHidden(Model())
    {
      mode := m;
      if m == Mode.None {
        callButton := callButton.(hidden := true);
        videoButton := videoButton.(hidden := true);
        volButton := volButton.(hidden := true);
        micButton := micButton.(hidden := true);
      }
    }

    /** Tooltips of all four buttons from their tables (also the locale-change callback). */
    method RetranslateUi()
      modifies this
      ensures Model() == Retranslate(old(Model()))
      ensures old(Valid()) ==> Valid() && Model() == old(Model())
    {
      callButton := SetStateToolTip(callButton, CallIndex(callState), CallToolTip);
      videoButton := SetStateToolTip(videoButton, CallIndex(videoState), VideoToolTip);
      micButton := SetStateToolTip(micButton, ToolIndex(micState), MicToolTip);
      volButton := SetStateToolTip(volButton, ToolIndex(volState), VolToolTip);
    }

    /** Re-renders every button from the stored states; leaves hidden flags alone. */
    method UpdateButtonsView()
      modifies this
      ensures Model() == Render(old(Model()))
    {
      callButton := SetStateName(callButton, CallIndex(callState));
      videoButton := SetStateName(videoButton, CallIndex(videoState));
      micButton := SetStateName(micButton, ToolIndex(micState));
      volButton := SetStateName(volButton, ToolIndex(volState));
      RetranslateUi();
    }

    method ShowOutgoingCall(video: bool)
      requires Valid()
      modifies this
      ensures Valid() && Model() == Step(old(Model()), Op.ShowOutgoingCall(video))
    {
      ghost var st := Model();
      if video {
        videoState := Outgoing;
      } else {
        callState := Outgoing;
      }
      UpdateButtonsView();
      StepPreservesInv(st, Op.ShowOutgoingCall(video));
    }

    method ShowCallConfirm(video: bool)
      requires Valid()
      modifies this
      ensures Valid() && Model() == Step(old(Model()), Op.ShowCallConfirm(video))
    {
      callConfirm := Some(if video then VideoButton else CallButton);
    }

    method RemoveCallConfirm()
      requires Valid()
      modifies this
      ensures Valid() && Model() == Step(old(Model()), Op.RemoveCallConfirm)
    {
      callConfirm := Option.None;
    }

    /** The overlay's "accepted" outcome, forwarded as the header's callAccepted signal. */
    method ForwardCallAccepted()
      requires Valid()
      modifies this
      ensures Valid() && Model() == Step(old(Model()), Op.ConfirmAccepted)
    {
      if callConfirm.Some? {
        events := events + [CallAccepted];
      }
    }

    /** The overlay's "rejected" outcome, forwarded as the header's callRejected signal. */
    method ForwardCallRejected()
      requires Valid()
      modifies this
      ensures Valid() && Model() == Step(old(Model()), Op.ConfirmRejected)
    {
      if callConfirm.Some? {
        events := events + [CallRejected];
      }
    }

    method UpdateCallButtons(online: bool, audio: bool, video: bool)
      requires Valid()
      modifies this
      ensures Valid() && Model() == Step(old(Model()), Op.UpdateCallButtons(online, audio, video))
    {
      ghost var st := Model();
      var audioAvailable := online && HasAudio(mode);
      var videoAvailable := online && HasVideo(mode);
      if !audioAvailable {
        callState := CallButtonState.Disabled;
      } else if video {
        callState := CallButtonState.Disabled;
      } else if audio {
        callState := InCall;
      } else {
        callState := Available;
      }

      if !videoAvailable {
        videoState := CallButtonState.Disabled;
      } else if video {
        videoState := InCall;
      } else if audio {
        videoState := CallButtonState.Disabled;
      } else {
        videoState := Available;
      }
      assert callState == CallStateFor(audioAvailable, audio, video);
      assert videoState == VideoStateFor(videoAvailable, audio, video);

      UpdateButtonsView();
      StepPreservesInv(st, Op.UpdateCallButtons(online, audio, video));
    }

    /** The direct enable of the mute button is overwritten by the render with the same flag. */
    method UpdateMuteMicButton(active: bool, inputMuted: bool)
      requires Valid()
      modifies this
      ensures Valid() && Model() == Step(old(Model()), Op.UpdateMuteMicButton(active, inputMuted))
      ensures micButton.enabled == active
    {
      ghost var st := Model();
      micButton := micButton.(enabled := active);
      if active {
        micState := if inputMuted then On else Off;
      } else {
        micState := ToolButtonState.Disabled;
      }
      UpdateButtonsView();
      StepPreservesInv(st, Op.UpdateMuteMicButton(active, inputMuted));
    }

    method UpdateMuteVolButton(active: bool, outputMuted: bool)
      requires Valid()
      modifies this
      ensures Valid() && Model() == Step(old(Model()), Op.UpdateMuteVolButton(active, outputMuted))
      ensures volButton.enabled == active
    {
      ghost var st := Model();
      volButton := volButton.(enabled := active);
      if active {
        volState := if outputMuted then On else Off;
      } else {
        volState := ToolButtonState.Disabled;
      }
      UpdateButtonsView();
      StepPreservesInv(st, Op.UpdateMuteVolButton(active, outputMuted));
    }

    /** Slot for the name label's finished edit. */
    method OnNameChanged(name: string)
      requires Valid()
      modifies this
      ensures Valid() && Model() == Step(old(Model()), Op.NameEdited(name))
    {
      if name != "" {
        nameText := name;
        events := events + [NameChanged(name)];
      }
    }
  }
}
