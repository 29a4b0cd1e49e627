/** The server-driven handlers of src/application.py: the JSON dispatcher
    (`_on_incoming_json` and the tts/stt/llm handlers it calls), the two
    scheduled tts handlers, and the drain-then-transition worker a tts stop
    starts. */
module Messages {
  import opened Wrappers
  import opened JsonValue
  import opened AppTypes
  import opened StateMachine
  import TaskQueue

  /** A control message as the protocol client hands it over: raw text still
      to be parsed, or an already-decoded value. */
  datatype Incoming = RawText(text: string) | Decoded(value: Json)

  /** The phrase that marks a device-activation prompt in assistant speech. */
  const VerificationPhrase: string := "请登录到控制面板添加设备，输入验证码"

  /** `schedule(task)` on the application. */
  function Enqueue(app: App, t: Task): (r: App)
    ensures r.tasks == app.tasks + [t] && r == app.(tasks := r.tasks)
  {
    app.(tasks := TaskQueue.Schedule(app.tasks, t))
  }

  /** The value `_on_incoming_json` goes on to dispatch: none for a falsy
      message, or for text that `json.loads` rejects (`parse` returns `None`). */
  function Payload(msg: Incoming, parse: string -> Option<Json>): Option<Json>
  {
    match msg
    case RawText(text) => if text == "" then None else parse(text)
    case Decoded(value) => if Truthy(value) then Some(value) else None
  }

  /** `data.get(key, "")` on a decoded object. */
  function Field(fields: map<string, Json>, key: string): Json
  {
    Get(fields, key, JStr(""))
  }

  /** `r` is `app` with zero or more tasks appended to the queue and nothing else changed. */
  predicate OnlySchedules(app: App, r: App)
  {
    r == app.(tasks := r.tasks) && |r.tasks| >= |app.tasks| && r.tasks[..|app.tasks|] == app.tasks
  }

  /** The `sentence_start` branch of `_handle_tts_message`: a truthy text is
      shown as the assistant's message, and additionally handed to the
      verification-code handler when it contains the activation phrase (for a
      list text: holds it as an element; for a number or bool the `in` raises,
      which the dispatcher's try swallows after the chat message was scheduled). */
  function HandleSentence(app: App, text: Json): (r: App)
    ensures OnlySchedules(app, r)
    ensures !Truthy(text) ==> r == app
    ensures Truthy(text) && In(VerificationPhrase, text) == Some(true) ==>
              r.tasks == app.tasks + [ChatMessageTask("assistant", text), VerificationCodeTask(text)]
    ensures Truthy(text) && In(VerificationPhrase, text) != Some(true) ==>
              r.tasks == app.tasks + [ChatMessageTask("assistant", text)]
  {
    if !Truthy(text) then app
    else
      var a := Enqueue(app, ChatMessageTask("assistant", text));
      if In(VerificationPhrase, text) == Some(true) then Enqueue(a, VerificationCodeTask(text)) else a
  }

  /** `_handle_tts_message`: dispatch on `state`; any other state changes nothing. */
  function HandleTtsMessage(app: App, fields: map<string, Json>): (r: App)
    ensures OnlySchedules(app, r)
    ensures Field(fields, "state") == JStr("start") ==> r.tasks == app.tasks + [TtsStartTask]
    ensures Field(fields, "state") == JStr("stop") ==> r.tasks == app.tasks + [TtsStopTask]
    ensures Field(fields, "state") == JStr("sentence_start") ==> r == HandleSentence(app, Field(fields, "text"))
    ensures Field(fields, "state") !in {JStr("start"), JStr("stop"), JStr("sentence_start")} ==> r == app
  {
    var state := Field(fields, "state");
    if state == JStr("start") then Enqueue(app, TtsStartTask)
    else if state == JStr("stop") then Enqueue(app, TtsStopTask)
    else if state == JStr("sentence_start") then HandleSentence(app, Field(fields, "text"))
    else app
  }

  /** The body of `_on_incoming_json` once `data` is a decoded object: dispatch on `type`. */
  function Dispatch(app: App, fields: map<string, Json>): (r: App)
    ensures OnlySchedules(app, r)
    // an unknown type is logged and changes nothing
    ensures Field(fields, "type") !in {JStr("tts"), JStr("stt"), JStr("llm")} ==> r == app
    ensures Field(fields, "type") == JStr("tts") ==> r == HandleTtsMessage(app, fields)
    // stt and llm schedule a task exactly when their text / emotion is non-empty
    ensures Field(fields, "type") == JStr("stt") ==>
              r.tasks == if Truthy(Field(fields, "text"))
                         then app.tasks + [ChatMessageTask("user", Field(fields, "text"))]
                         else app.tasks
    ensures Field(fields, "type") == JStr("llm") ==>
              r.tasks == if Truthy(Field(fields, "emotion"))
                         then app.tasks + [EmotionTask(Field(fields, "emotion"))]
                         else app.tasks
  {
    var kind := Field(fields, "type");
    if kind == JStr("tts") then HandleTtsMessage(app, fields)
    else if kind == JStr("stt") then
      var text := Field(fields, "text");
      if Truthy(text) then Enqueue(app, ChatMessageTask("user", text)) else app
    else if kind == JStr("llm") then
      var emotion := Field(fields, "emotion");
      if Truthy(emotion) then Enqueue(app, EmotionTask(emotion)) else app
    else app
  }

  /** `_on_incoming_json`. An empty message, text `json.loads` rejects, or a
      decoded value that is not an object (so `.get` raises inside the try)
      changes nothing. */
  function OnIncomingJson(app: App, msg: Incoming, parse: string -> Option<Json>): (r: App)
    ensures OnlySchedules(app, r)
    ensures Payload(msg, parse).None? ==> r == app
    ensures Payload(msg, parse).Some? && !Payload(msg, parse).value.JObj? ==> r == app
    ensures Payload(msg, parse).Some? && Payload(msg, parse).value.JObj? ==>
              r == Dispatch(app, Payload(msg, parse).value.fields)
  {
    match Payload(msg, parse)
    case None => app
    case Some(data) => if data.JObj? then Dispatch(app, data.fields) else app
  }

  /** `_handle_tts_start`: clear the abort flag and the stale queue, and start
      speaking only from IDLE or LISTENING. */
  function HandleTtsStart(app: App, hw: Hardware): (r: App)
    ensures Extends(app, r)
    ensures !r.aborted && r.playback == []
    ensures app.state == Idle || app.state == Listening ==> r.state == Speaking
    ensures app.state == Connecting || app.state == Speaking ==>
              r == app.(aborted := false, playback := [])
    ensures r.sent == app.sent && r.tasks == app.tasks && r.keepListening == app.keepListening
  {
    var a := app.(aborted := false, playback := []);
    if app.state == Idle || app.state == Listening then SetDeviceState(a, Speaking, hw) else a
  }

  /** `_handle_tts_stop`: while SPEAKING, start the worker that waits for the
      queue to drain and then leaves SPEAKING; otherwise nothing. */
  function HandleTtsStop(app: App): (r: App)
    ensures Extends(app, r)
    ensures app.state == Speaking ==> r == app.(workers := app.workers + [DrainThenTransition])
    ensures app.state != Speaking ==> r == app
  {
    if app.state == Speaking then app.(workers := app.workers + [DrainThenTransition]) else app
  }

  /** The worker of `_handle_tts_stop` once its bounded wait is over: drop
      whatever audio is left, then, with keep-listening on, ask for an
      auto-stop listening turn and enter LISTENING, else enter IDLE. It does
      not look at the device state again. Without a protocol client the
      request raises in the worker thread, which then ends after the purge.
      Returns whether the worker raised. */
  function FinishSpeaking(app: App, hw: Hardware): (r: (App, bool))
    ensures Extends(app, r.0)
    ensures r.0.playback == [] && r.0.tasks == app.tasks
    ensures r.1 <==> app.keepListening && !app.hasProtocol
    ensures r.1 ==> r.0 == app.(playback := [])
    ensures !r.1 && app.keepListening ==>
              r.0.state == Listening && r.0.sent == app.sent + [SendStartListening(AutoStop)]
    ensures !app.keepListening ==> r.0.state == Idle && r.0.sent == app.sent
    ensures !app.keepListening && app.state != Idle ==> (r.0.outputActive <==> app.outputActive && hw.output.stopFails)
  {
    var a := app.(playback := []);
    if a.keepListening then
      if !a.hasProtocol then (a, true)
      else (SetDeviceState(a.(sent := a.sent + [SendStartListening(AutoStop)]), Listening, hw), false)
    else (SetDeviceState(a, Idle, hw), false)
  }
}
