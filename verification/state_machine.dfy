/** `set_device_state` and the two lookup tables of src/application.py. */
module StateMachine {
  import opened Wrappers
  import opened JsonValue
  import opened AppTypes

  const IdleText: string := "待命"
  const ConnectingText: string := "连接中..."
  const ListeningText: string := "聆听中..."
  const SpeakingText: string := "说话中..."
  const UnknownText: string := "未知"

  /** The table behind `_get_status_text`. */
  const StatusTable: map<DeviceState, string> :=
    map[Idle := IdleText, Connecting := ConnectingText, Listening := ListeningText, Speaking := SpeakingText]

  /** `_get_status_text`: the status line for a device state. Its fallback
      "未知" is for a state outside the table, and the table holds every state. */
  function StatusText(s: DeviceState): (r: string)
    ensures r in StatusTable.Values && r != UnknownText
  {
    assert s == Idle || s == Connecting || s == Listening || s == Speaking;
    StatusTable[s]
  }

  /** Every state has its own status line, and none is the fallback. */
  lemma StatusTextDistinct(s: DeviceState, t: DeviceState)
    ensures StatusText(s) != UnknownText
    ensures StatusText(s) == StatusText(t) ==> s == t
  {
  }

  const NeutralFace: string := "😶"
  const HappyFace: string := "🙂"

  /** The table behind `_get_current_emotion`. */
  const EmotionTable: map<string, string> := map[
    "neutral" := "😶", "happy" := "🙂", "laughing" := "😆", "funny" := "😂",
    "sad" := "😔", "angry" := "😠", "crying" := "😭", "loving" := "😍",
    "embarrassed" := "😳", "surprised" := "😲", "shocked" := "😱",
    "thinking" := "🤔", "winking" := "😉", "cool" := "😎", "relaxed" := "😌",
    "delicious" := "🤤", "kissy" := "😘", "confident" := "😏", "sleepy" := "😴",
    "silly" := "😜", "confused" := "🙄"]

  /** `_get_current_emotion` for a string emotion: its table entry, "😶" for a name outside the table. */
  function EmotionSymbol(name: string): (symbol: string)
    ensures symbol in EmotionTable.Values
    ensures name in EmotionTable ==> symbol == EmotionTable[name]
    ensures name !in EmotionTable ==> symbol == EmotionTable["neutral"]
  {
    assert EmotionTable["neutral"] == NeutralFace;
    if name in EmotionTable then EmotionTable[name] else NeutralFace
  }

  /** `_get_current_emotion` for whatever value the server sent: a string is
      looked up, another hashable value (number, bool, null) misses the table,
      and a list or object makes the lookup raise (`None`). */
  function EmotionOf(e: Json): (r: Option<string>)
    ensures r.None? <==> (e.JArr? || e.JObj?)
    ensures r.Some? ==> r.value in EmotionTable.Values
  {
    match e
    case JStr(s) => Some(EmotionSymbol(s))
    case JArr(_) => None
    case JObj(_) => None
    case _ => Some(EmotionSymbol(""))
  }

  /** The faces `set_device_state` shows are the table's "neutral" and "happy" entries. */
  lemma EntryFacesAreTableEntries()
    ensures NeutralFace == EmotionSymbol("neutral") && HappyFace == EmotionSymbol("happy")
  {
  }

  /** `alert(title, message)`. */
  function ShowAlert(a: App, title: string, message: string): (r: App)
    ensures Extends(a, r)
    ensures r == a.(display := a.display + [Alert(title, message)])
  {
    a.(display := a.display + [Alert(title, message)])
  }

  const ErrorTitle: string := "错误"
  const ReinitFailedPrefix: string := "重新初始化音频设备失败: "

  /** `_reinitialize_input_stream` / `_reinitialize_output_stream`: close the
      stream whose faults are `f` and open a fresh one (which starts active); when reopening fails
      the old, closed stream stays and the user is alerted. Returns the new
      activity of the stream. */
  function Reinit(a: App, f: StreamFaults, errorText: string): (r: (App, bool))
    ensures r.1 == !f.reopenFails
    ensures r.0 == if f.reopenFails then ShowAlert(a, ErrorTitle, ReinitFailedPrefix + errorText) else a
  {
    if f.reopenFails then (ShowAlert(a, ErrorTitle, ReinitFailedPrefix + errorText), false)
    else (a, true)
  }

  /** Start an inactive stream; a raising `start_stream` falls back to `Reinit`.
      Returns the new activity of the stream. */
  function EnsureStarted(a: App, active: bool, f: StreamFaults, errorText: string): (r: (App, bool))
    ensures r.1 <==> active || !f.startFails || !f.reopenFails
    ensures r.0 == a || r.0 == ShowAlert(a, ErrorTitle, ReinitFailedPrefix + errorText)
    ensures DeviceFieldsOnly(a, r.0) && r.0.state == a.state && r.0.notified == a.notified
    ensures r.0.inputActive == a.inputActive && r.0.outputActive == a.outputActive
    ensures Prefix(a.display, r.0.display)
  {
    if active then (a, true)
    else if !f.startFails then (a, true)
    else Reinit(a, f, errorText)
  }

  /** The state-entry side effects of `set_device_state`, display calls first. */
  function EnterEffects(a: App, s: DeviceState, hw: Hardware): (r: App)
    ensures r.state == a.state && r.notified == a.notified && DeviceFieldsOnly(a, r)
    ensures |r.display| > |a.display| && r.display[..|a.display|] == a.display
    ensures r.display[|a.display|] == UpdateStatus(StatusText(s))
    ensures s == Idle ==> (r.outputActive <==> a.outputActive && hw.output.stopFails) && r.inputActive == a.inputActive
    ensures s == Connecting ==> r.inputActive == a.inputActive && r.outputActive == a.outputActive
    ensures s == Listening ==>
              r.outputActive == a.outputActive
              && (r.inputActive <==> a.inputActive || !hw.input.startFails || !hw.input.reopenFails)
    ensures s == Speaking ==>
              (r.inputActive <==> a.inputActive && hw.input.stopFails)
              && (r.outputActive <==> a.outputActive || !hw.output.startFails || !hw.output.reopenFails)
  {
    match s
    case Idle =>
      a.(display := a.display + [UpdateStatus(IdleText), UpdateEmotion(NeutralFace)],
         outputActive := a.outputActive && hw.output.stopFails)
    case Connecting =>
      a.(display := a.display + [UpdateStatus(ConnectingText)])
    case Listening => EnterListening(a, hw)
    case Speaking => EnterSpeaking(a, hw)
  }

  /** Entering LISTENING: the status line and the happy face, then capture is started. */
  function EnterListening(a: App, hw: Hardware): (r: App)
    ensures r.state == a.state && r.notified == a.notified && DeviceFieldsOnly(a, r)
    ensures |r.display| > |a.display| && r.display[..|a.display|] == a.display
    ensures r.display[|a.display|] == UpdateStatus(ListeningText)
    ensures r.outputActive == a.outputActive
    ensures r.inputActive <==> a.inputActive || !hw.input.startFails || !hw.input.reopenFails
  {
    var b := a.(display := a.display + [UpdateStatus(ListeningText), UpdateEmotion(HappyFace)]);
    var (c, active) := EnsureStarted(b, b.inputActive, hw.input, hw.errorText);
    c.(inputActive := active)
  }

  /** Entering SPEAKING: the status line, then playback is started and capture stopped. */
  function EnterSpeaking(a: App, hw: Hardware): (r: App)
    ensures r.state == a.state && r.notified == a.notified && DeviceFieldsOnly(a, r)
    ensures |r.display| > |a.display| && r.display[..|a.display|] == a.display
    ensures r.display[|a.display|] == UpdateStatus(SpeakingText)
    ensures r.inputActive <==> a.inputActive && hw.input.stopFails
    ensures r.outputActive <==> a.outputActive || !hw.output.startFails || !hw.output.reopenFails
  {
    var b := a.(display := a.display + [UpdateStatus(SpeakingText)]);
    var (c, active) := EnsureStarted(b, b.outputActive, hw.output, hw.errorText);
    c.(outputActive := active, inputActive := c.inputActive && hw.input.stopFails)
  }

  /** Call every listener with `s`, in registration order. A raising listener
      is recorded as raised and the loop goes on with the next one. */
  function Notify(listeners: seq<Listener>, s: DeviceState): (calls: seq<ListenerCall>)
    ensures |calls| == |listeners|
    ensures forall i :: 0 <= i < |listeners| ==>
              calls[i] == ListenerCall(listeners[i].id, s, listeners[i].raises)
  {
    if |listeners| == 0 then []
    else [ListenerCall(listeners[0].id, s, listeners[0].raises)] + Notify(listeners[1..], s)
  }

  /** `after` is `before` followed by one call of every listener with `s`, in order. */
  predicate NotifiedOnce(before: seq<ListenerCall>, after: seq<ListenerCall>, listeners: seq<Listener>, s: DeviceState)
  {
    && |after| == |before| + |listeners|
    && after[..|before|] == before
    && forall i :: 0 <= i < |listeners| ==>
         after[|before| + i] == ListenerCall(listeners[i].id, s, listeners[i].raises)
  }

  /** `b` differs from `a` at most in the device state, the two stream flags,
      the display log and the listener log. */
  predicate DeviceFieldsOnly(a: App, b: App)
  {
    && b.keepListening == a.keepListening && b.aborted == a.aborted
    && b.currentText == a.currentText && b.currentEmotion == a.currentEmotion
    && b.hasProtocol == a.hasProtocol && b.channelOpen == a.channelOpen
    && b.playback == a.playback && b.tasks == a.tasks && b.workers == a.workers
    && b.listeners == a.listeners && b.sent == a.sent && b.played == a.played
  }

  /** `set_device_state(s)`. */
  function SetDeviceState(app: App, s: DeviceState, hw: Hardware): (r: App)
    ensures Extends(app, r)
    // re-entering the current state does nothing at all
    ensures app.state == s ==> r == app
    // a genuine transition lands in `s`, touches only the device fields,
    // shows the table's status line first, and notifies every listener once
    ensures app.state != s ==> r.state == s && DeviceFieldsOnly(app, r)
    ensures app.state != s ==> NotifiedOnce(app.notified, r.notified, app.listeners, s)
    ensures app.state != s ==>
              |r.display| > |app.display| && r.display[..|app.display|] == app.display
              && r.display[|app.display|] == UpdateStatus(StatusText(s))
    // stream effects of the entered state
    ensures app.state != s && s == Idle ==>
              (r.outputActive <==> app.outputActive && hw.output.stopFails) && r.inputActive == app.inputActive
    ensures app.state != s && s == Connecting ==>
              r.inputActive == app.inputActive && r.outputActive == app.outputActive
    ensures app.state != s && s == Listening ==>
              r.outputActive == app.outputActive
              && (r.inputActive <==> app.inputActive || !hw.input.startFails || !hw.input.reopenFails)
    ensures app.state != s && s == Speaking ==>
              (r.inputActive <==> app.inputActive && hw.input.stopFails)
              && (r.outputActive <==> app.outputActive || !hw.output.startFails || !hw.output.reopenFails)
  {
    if app.state == s then app
    else
      var a := EnterEffects(app.(state := s), s, hw);
      a.(notified := a.notified + Notify(a.listeners, s))
  }
}
