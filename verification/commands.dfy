/** The user commands of src/application.py, each run as a scheduled task:
    `_start_listening_impl` (push-to-talk press), `_toggle_chat_state_impl`
    (auto-conversation button), `_stop_listening_impl` (release),
    `abort_speaking`, and `_on_mode_changed`; plus the open-channel coroutine a
    manual start launches. */
module Commands {
  import opened AppTypes
  import opened StateMachine

  const OpenChannelFailed: string := "打开音频通道失败"
  const HintTitle: string := "提示"
  const ModeSwitchRefused: string := "只有在待命状态下才能切换对话模式"

  /** `abort_speaking(reason)`: raise the abort flag, ask the server to stop,
      and after a wake-word abort start the short timer that re-enters the
      listening flow. It neither changes the device state nor touches the
      queue: the next output cycle purges it. Without a protocol client the
      send raises after the flag is set. Returns whether it raised. */
  function AbortSpeaking(app: App, reason: AbortReason): (r: (App, bool))
    ensures Extends(app, r.0)
    ensures r.0.tasks == app.tasks
    ensures r.0.aborted && r.0.state == app.state && r.0.playback == app.playback
    ensures r.1 <==> !app.hasProtocol
    ensures r.1 ==> r.0 == app.(aborted := true)
    ensures !r.1 ==> r.0.sent == app.sent + [SendAbortSpeaking(reason)]
    ensures !r.1 ==> r.0.workers == if reason == WakeWordDetected then app.workers + [RelistenAfterAbort]
                                    else app.workers
  {
    var a := app.(aborted := true);
    if !a.hasProtocol then (a, true)
    else
      var b := a.(sent := a.sent + [SendAbortSpeaking(reason)]);
      if reason == WakeWordDetected then (b.(workers := b.workers + [RelistenAfterAbort]), false)
      else (b, false)
  }

  /** `_start_listening_impl`: manual listening. From IDLE with the channel
      closed it enters CONNECTING and leaves the rest to the open-channel
      coroutine; with the channel open it requests a manual turn and enters
      LISTENING; while SPEAKING it aborts as for a wake word. It always turns
      keep-listening off (when a protocol client exists). */
  function StartListeningImpl(app: App, hw: Hardware): (r: App)
    ensures Extends(app, r)
    ensures r.tasks == app.tasks
    ensures !app.hasProtocol ==> r == app
    ensures app.hasProtocol ==> !r.keepListening
    ensures app.hasProtocol && app.state == Idle && !app.channelOpen ==>
              r.state == Connecting && r.workers == app.workers + [OpenChannelThenListen] && r.sent == app.sent
    ensures app.hasProtocol && app.state == Idle && app.channelOpen ==>
              r.state == Listening && r.sent == app.sent + [SendStartListening(Manual)]
    ensures app.hasProtocol && app.state == Speaking ==>
              r == AbortSpeaking(app.(keepListening := false), WakeWordDetected).0
    ensures app.hasProtocol && (app.state == Connecting || app.state == Listening) ==>
              r == app.(keepListening := false)
  {
    if !app.hasProtocol then app
    else
      var a := app.(keepListening := false);
      match a.state
      case Idle =>
        if !a.channelOpen then
          var b := SetDeviceState(a, Connecting, hw);
          b.(workers := b.workers + [OpenChannelThenListen])
        else
          SetDeviceState(a.(sent := a.sent + [SendStartListening(Manual)]), Listening, hw)
      case Speaking => AbortSpeaking(a, WakeWordDetected).0
      case _ => a
  }

  /** `_open_audio_channel_and_start_manual_listening`: request the channel
      opened; `channelOpened` is what `open_audio_channel` answered. On failure
      back to IDLE and alert; on success request a manual turn and enter
      LISTENING. */
  function OpenAndStartManualListening(app: App, channelOpened: bool, hw: Hardware): (r: App)
    ensures Extends(app, r)
    ensures r.tasks == app.tasks
    ensures !channelOpened ==>
              (r.state == Idle && r.sent == app.sent + [OpenAudioChannel]
               && |r.display| > 0 && r.display[|r.display| - 1] == Alert(ErrorTitle, OpenChannelFailed))
    ensures channelOpened ==>
              (r.state == Listening && r.channelOpen
               && r.sent == app.sent + [OpenAudioChannel, SendStartListening(Manual)])
  {
    if !channelOpened then ManualOpenFailed(app, hw) else ManualOpenSucceeded(app, hw)
  }

  /** The open was requested and refused: back to IDLE, then the alert. */
  function ManualOpenFailed(app: App, hw: Hardware): (r: App)
    ensures Extends(app, r)
    ensures r.tasks == app.tasks && r.state == Idle && r.sent == app.sent + [OpenAudioChannel]
    ensures |r.display| > 0 && r.display[|r.display| - 1] == Alert(ErrorTitle, OpenChannelFailed)
  {
    ShowAlert(SetDeviceState(app.(sent := app.sent + [OpenAudioChannel]), Idle, hw), ErrorTitle, OpenChannelFailed)
  }

  /** The open was requested and granted: request a manual turn and listen. */
  function ManualOpenSucceeded(app: App, hw: Hardware): (r: App)
    ensures Extends(app, r)
    ensures r.tasks == app.tasks && r.state == Listening && r.channelOpen
    ensures r.sent == app.sent + [OpenAudioChannel, SendStartListening(Manual)]
  {
    var a := app.(channelOpen := true, sent := app.sent + [OpenAudioChannel, SendStartListening(Manual)]);
    assert Extends(app, a);
    SetDeviceState(a, Listening, hw)
  }

  /** The failure path of the IDLE branch of `_toggle_chat_state_impl`: the
      open request went out but the channel is still closed, so alert and
      fall back to IDLE. */
  function AbandonOpen(a: App, hw: Hardware): (r: App)
    requires a.state == Connecting
    ensures Extends(a, r)
    ensures r.tasks == a.tasks
    ensures r.state == Idle && r.keepListening == a.keepListening && r.sent == a.sent + [OpenAudioChannel]
    ensures |r.display| > |a.display| && r.display[|a.display|] == Alert(ErrorTitle, OpenChannelFailed)
  {
    var b := ShowAlert(a.(sent := a.sent + [OpenAudioChannel]), ErrorTitle, OpenChannelFailed);
    SetDeviceState(b, Idle, hw)
  }

  /** The success path of the IDLE branch of `_toggle_chat_state_impl`: turn
      keep-listening on, request an auto-stop turn and enter LISTENING. */
  function StartAutoListening(a: App, hw: Hardware): (r: App)
    requires a.state == Connecting
    ensures Extends(a, r)
    ensures r.tasks == a.tasks
    ensures r.state == Listening && r.keepListening && r.channelOpen == a.channelOpen
    ensures r.sent == a.sent + [SendStartListening(AutoStop)]
  {
    SetDeviceState(a.(keepListening := true, sent := a.sent + [SendStartListening(AutoStop)]), Listening, hw)
  }

  /** The IDLE branch of `_toggle_chat_state_impl` when the channel was closed
      and its asynchronous open finished before the second look. */
  function OpenThenAutoListen(a: App, hw: Hardware): (r: App)
    requires a.state == Connecting
    ensures Extends(a, r)
    ensures r.tasks == a.tasks
    ensures r.state == Listening && r.keepListening && r.channelOpen
    ensures r.sent == a.sent + [OpenAudioChannel, SendStartListening(AutoStop)]
  {
    var b := a.(sent := a.sent + [OpenAudioChannel], channelOpen := true);
    assert Extends(a, b);
    StartAutoListening(b, hw)
  }

  /** The first step of the IDLE branch of `_toggle_chat_state_impl`. */
  function EnterConnecting(app: App, hw: Hardware): (r: App)
    requires app.state == Idle
    ensures Extends(app, r)
    ensures r.tasks == app.tasks
    ensures r.state == Connecting && r.channelOpen == app.channelOpen
    ensures r.sent == app.sent && r.keepListening == app.keepListening
  {
    SetDeviceState(app, Connecting, hw)
  }

  /** The IDLE branch of `_toggle_chat_state_impl`: enter CONNECTING; if the
      channel is closed, request it opened and look again at once.
      `openedMeanwhile` says whether the asynchronous open finished before that
      second look; if not, alert and fall back to IDLE, otherwise start an
      auto-stop listening turn. */
  function ToggleFromIdle(app: App, openedMeanwhile: bool, hw: Hardware): (r: App)
    requires app.state == Idle
    ensures Extends(app, r)
    ensures r.tasks == app.tasks
    ensures app.channelOpen || openedMeanwhile ==>
              (r.state == Listening && r.keepListening && r.channelOpen
               && r.sent == app.sent + (if app.channelOpen then [] else [OpenAudioChannel])
                                     + [SendStartListening(AutoStop)])
    ensures !app.channelOpen && !openedMeanwhile ==>
              (r.state == Idle && r.keepListening == app.keepListening
               && r.sent == app.sent + [OpenAudioChannel]
               && Alert(ErrorTitle, OpenChannelFailed) in r.display[|app.display|..])
  {
    var a := EnterConnecting(app, hw);
    var r := if !a.channelOpen && !openedMeanwhile then AbandonOpen(a, hw)
             else if a.channelOpen then StartAutoListening(a, hw)
             else OpenThenAutoListen(a, hw);
    ExtendsTrans(app, a, r);
    if !a.channelOpen && !openedMeanwhile then
      assert r.display[|app.display|..][|a.display| - |app.display|] == Alert(ErrorTitle, OpenChannelFailed);
      r
    else
      assert app.sent + [] == app.sent;
      r
  }

  /** `_toggle_chat_state_impl`: from IDLE start an auto conversation; while
      SPEAKING abort without a reason; while LISTENING request the channel
      closed; while CONNECTING do nothing. */
  function ToggleChatStateImpl(app: App, openedMeanwhile: bool, hw: Hardware): (r: App)
    ensures Extends(app, r)
    ensures r.tasks == app.tasks
    ensures !app.hasProtocol ==> r == app
    ensures app.hasProtocol && app.state == Idle ==> r == ToggleFromIdle(app, openedMeanwhile, hw)
    ensures app.hasProtocol && app.state == Speaking ==> r == AbortSpeaking(app, NoReason).0
    ensures app.hasProtocol && app.state == Listening ==> r == app.(sent := app.sent + [CloseAudioChannel])
    ensures app.state == Connecting ==> r == app
  {
    if !app.hasProtocol then app
    else
      match app.state
      case Idle => ToggleFromIdle(app, openedMeanwhile, hw)
      case Speaking => AbortSpeaking(app, NoReason).0
      case Listening => app.(sent := app.sent + [CloseAudioChannel])
      case Connecting => app
  }

  /** `_stop_listening_impl`: only while LISTENING, request the turn stopped and
      enter IDLE. Without a protocol client the request raises first and the
      state stays. Returns whether it raised. */
  function StopListeningImpl(app: App, hw: Hardware): (r: (App, bool))
    ensures Extends(app, r.0)
    ensures r.0.tasks == app.tasks
    ensures app.state != Listening ==> r == (app, false)
    ensures app.state == Listening && !app.hasProtocol ==> r == (app, true)
    ensures app.state == Listening && app.hasProtocol ==>
              !r.1 && r.0.state == Idle && r.0.sent == app.sent + [SendStopListening]
  {
    if app.state != Listening then (app, false)
    else if !app.hasProtocol then (app, true)
    else (SetDeviceState(app.(sent := app.sent + [SendStopListening]), Idle, hw), false)
  }

  /** `_on_mode_changed(auto)`: the conversation mode can change only in IDLE;
      elsewhere the user is told so and nothing else changes. */
  function OnModeChanged(app: App, auto: bool): (r: (App, bool))
    ensures r.1 <==> app.state == Idle
    ensures r.1 ==> r.0 == app.(keepListening := auto)
    ensures !r.1 ==> r.0 == ShowAlert(app, HintTitle, ModeSwitchRefused)
  {
    if app.state != Idle then (ShowAlert(app, HintTitle, ModeSwitchRefused), false)
    else (app.(keepListening := auto), true)
  }
}
