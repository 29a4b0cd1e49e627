# xiaozhi voice client core, modelled in Dafny

This project models the core of the xiaozhi desktop voice client. That client is a
Python program that holds a spoken conversation with a server: it listens, sends the
user's turn, plays the streamed reply, and supervises the connection.

The model covers:

- **The conversation engine of `src/application.py`.** This is a step system over an
  immutable application record (`AppTypes.App`).
  - The device states are IDLE, CONNECTING, LISTENING and SPEAKING. `set_device_state`
    applies the entry effects on the capture and playback streams, shows a status line,
    and notifies the listeners.
  - The task scheduler takes a snapshot of the queue and drains it in FIFO order.
    A task that raises is logged and the drain goes on.
  - The playback queue and the batched output cycle, with the abort flag.
  - The JSON dispatcher for `tts`, `stt` and `llm` messages, and the tts start and stop
    handlers.
  - The user commands: push-to-talk press and release, the auto-conversation toggle,
    abort, and the mode switch.
  - The bounded reconnect.
  - The status and emotion lookup tables.

  The asynchronous parts become explicit things in the record:
  - Requests to the protocol client go to a `sent` log. Display calls go to
    `display`, listener calls to `notified`, and PCM buffers written to the speaker go to
    `played`.
  - Work the code starts on a detached thread or coroutine becomes a pending `Worker`:
    the drain-then-transition worker of a tts stop, the relisten timer after a wake-word
    abort, the delayed reconnect, and the open-channel-then-listen coroutine. A
    `WorkerDone` event runs it.
  - `Engine.Step` takes one event: a protocol callback, a main-loop signal, a
    user-interface action or a finishing worker. `Engine.Run` takes a sequence of events.
- **The camera settings store of `src/utils/Camera.py`:** the recursive merge of the
  stored file over the defaults, and reads and writes along dotted paths.
- **The vision settings of `src/vision/vision_config.py`:** filling in missing defaults
  on load, and updating a key only when the key is already present.
- **The streamed-reply reader of `src/utils/VL.py`** (`analyze_image`): it scans
  server-sent-event lines, drops the `data: ` prefix, stops at `[DONE]`, skips payloads
  that fail to decode, and concatenates the `choices[0].delta.content` values.
- **`get_mac_address` of `src/utils/system_info.py`:** the node number written as six
  colon-separated pairs of hex digits.

Some parts of the world are supplied as parameters:

- The hardware's behaviour is a `Hardware` record. For the capture stream and the
  playback stream separately, it says whether `start_stream` raises, whether
  `stop_stream` raises, and whether reopening the stream raises. It also gives the
  reopen error text and says how a write ends.
- The Opus decoder and `json.loads` are partial functions returning `Option`.
- The answers of `connect()` are a sequence of booleans.
- Whether a settings file could be saved is a boolean.

Python's own semantics are modelled where the code leans on them. This covers
truthiness, `in` on a dict, a list or a string (and the `TypeError` it raises on other
values), `dict.get`, `str.split`, and `str.startswith`.

## Model

| member | source | states |
|---|---|---|
| StateMachine.SetDeviceState | src/application.py:629-681 | Re-entering the current state returns the application unchanged: no display call, no stream change, no listener call. A genuine transition lands in the new state and shows that state's status line first. It changes only the device fields, and it calls every listener exactly once with the new state, in registration order, including after a listener raised. Entering SPEAKING stops capture, which stays active only when it was active and `stop_stream` raises. Entering LISTENING leaves capture active unless starting it and reopening it both fail. Entering IDLE stops playback in the same way, and leaves capture as it was. Every log is only extended. |
| StateMachine.EnterEffects | src/application.py:639-674 | The per-state entry effects: the status line comes first, the stream flags are set as for SetDeviceState, and nothing outside the device fields changes. |
| StateMachine.Notify | src/application.py:676-681 | One call per registered listener, in order, carrying the new state and whether that listener raised. |
| StateMachine.EnsureStarted | src/application.py:655-661 | An inactive stream ends active unless `start_stream` raises and reopening also fails. Only the reopening failure adds a display call, and that call is the reinitialisation alert. |
| StateMachine.Reinit | src/application.py:949-979 | Reinitialising a stream leaves it active exactly when reopening succeeds. A failed reopen shows the alert "错误" with the reinitialisation-failure text. |
| StateMachine.ShowAlert | src/application.py:853-858 | `alert(title, message)` appends one alert with that title and message to the display log and changes nothing else. |
| StateMachine.StatusText | src/application.py:683-691 | `_get_status_text` gives a line from the status table for every device state, never the fallback "未知". `StateMachine.StatusTextDistinct` adds that the lines are pairwise distinct. |
| StateMachine.StatusTextDistinct | src/application.py:683-691 | Every device state has its own status line, and none of them is the fallback "未知". This is a check on the constant table. |
| StateMachine.EmotionSymbol | src/application.py:697-722 | A known emotion name gives its table face. Any other name gives the "neutral" face. The result is always a face from the table. |
| StateMachine.EmotionOf | src/application.py:697-722 | For a server-sent emotion value, the lookup raises exactly when the value is a list or an object (unhashable). Otherwise the result is a face from the table. |
| StateMachine.EntryFacesAreTableEntries | src/application.py:640-651 | The faces shown on entering IDLE and LISTENING are the table's "neutral" and "happy" entries. This is a check on the constant tables. |
| TaskQueue.Schedule | src/application.py:272-276 | `schedule` appends the task at the tail and moves nothing that was already queued. |
| TaskQueue.RunAll | src/application.py:260-270 | The trace has one entry per snapshot task, naming the tasks in FIFO order. An empty snapshot changes nothing. A single task runs on the starting state, and its trace entry carries the raised flag that task returned. |
| TaskQueue.RunAllNth | src/application.py:266-270 | Task `i` runs on the state the first `i` tasks left. Its trace entry carries the raised flag that run returned, and the state after it is the state that run returned. This holds whether or not earlier tasks raised, so a raising task is recorded and the later tasks still run. |
| TaskQueue.RunAllSplit | src/application.py:266-270 | Draining `a + b` is draining `a` and then `b` from the state `a` left. This holds whether or not a task in `a` raised. |
| TaskQueue.RunAllKeeps | src/application.py:266-270 | Any reflexive, transitive relation that every step of a snapshot task keeps is also kept by the whole drain. |
| Engine.ProcessScheduledTasks | src/application.py:260-270 | The trace names exactly the tasks queued at the snapshot, in order. The queue is emptied before the first task runs: that task runs on the application with an empty queue, and its trace entry carries its own raised flag. An empty queue changes nothing. No scheduled task schedules another, so the queue ends empty. |
| Engine.Exec | src/application.py:266-270 | Running a scheduled closure never schedules another task. Only the emotion update and the stop-listening command can raise out of it. |
| Engine.RunWorker | src/application.py:511-541 | A finishing worker acts as follows. The tts-stop worker leaves the playback queue empty and schedules nothing. The relisten timer of a wake-word abort (src/application.py:847-851) only schedules `_start_listening_impl`. With a protocol client, the delayed reconnect (src/application.py:412-445) ends IDLE. The manual-start coroutine (src/application.py:767-775) first requests the channel opened. |
| Playback.OnIncomingAudio | src/application.py:447-453 | A packet joins the queue's tail only while SPEAKING. In any other state it is dropped and nothing changes. |
| Playback.DecodeBatch | src/application.py:322-339 | An empty batch gives no PCM. A single packet gives its decoded frame, or nothing when its decode raises. Together with `Playback.DecodeBatchAppend` this fixes the PCM of every batch. |
| Playback.HandleOutputAudio | src/application.py:297-361 | Outside SPEAKING a cycle does nothing. A cycle never changes the state, the flags, the task queue or the requests. The queue loses packets only from its head, and at most 10 unless the cycle aborts. When an abort is observed the queue ends empty and nothing is written. Otherwise exactly `min(10, queue length)` packets leave, and their decoded PCM is written exactly when it is non-empty, has an even length, and the write succeeds. |
| Playback.WriteBuffer | src/application.py:341-357 | Only a non-empty, even-length buffer is written. A "Stream not open" failure reinitialises the stream, and any other write failure changes nothing. |
| Playback.DecodeBatchAppend | src/application.py:322-339 | The PCM of two consecutive runs of packets is the PCM of the first run followed by that of the second. |
| Playback.DecodeSkipsFailure | src/application.py:334-339 | A packet whose decode raises is skipped without changing what its neighbours contribute. |
| Playback.DecodeBatchKeepsDecoded | src/application.py:334-341 | A batch where no packet decodes yields an empty buffer. A decodable first packet's PCM opens the buffer. |
| Messages.OnIncomingJson | src/application.py:455-478 | An empty message, text that `json.loads` rejects, or a decoded value that is not an object changes nothing. An object is dispatched on its `type`. Nothing but the task queue ever changes, and the queue only grows at its tail. |
| Messages.Dispatch | src/application.py:467-476 | An unknown `type` changes nothing. `tts` goes to the tts handler. `stt` schedules a user chat message, and `llm` an emotion update, exactly when the text or emotion is truthy. |
| Messages.HandleTtsMessage | src/application.py:480-495 | The state `start` schedules the tts-start handler and `stop` schedules the tts-stop handler. `sentence_start` goes to the sentence handler. Any other state changes nothing. |
| Messages.HandleSentence | src/application.py:486-495 | A truthy text schedules an assistant chat message. It also schedules the verification-code handler exactly when the activation phrase is `in` the text. A falsy text changes nothing. |
| Messages.Enqueue | src/application.py:272-276 | Scheduling appends one task to the queue and changes nothing else. |
| Messages.HandleTtsStart | src/application.py:497-509 | The abort flag is cleared and the queue emptied. The device moves to SPEAKING from IDLE or LISTENING. From CONNECTING or SPEAKING only the flag and the queue change. No request is sent and no task is queued. |
| Messages.HandleTtsStop | src/application.py:511-541 | While SPEAKING, one drain-then-transition worker starts. In any other state nothing changes. |
| Messages.FinishSpeaking | src/application.py:515-536 | The worker leaves the queue empty. With keep-listening on, it requests an auto-stop turn and enters LISTENING. Otherwise it enters IDLE without a request, and playback is stopped unless it was active and `stop_stream` raises. Without a protocol client the request raises after the purge, and nothing else changes. |
| Commands.AbortSpeaking | src/application.py:835-851 | The abort flag is raised. The device state and the queue are left alone. The abort is requested with its reason, and a wake-word abort starts the relisten timer. Without a protocol client the send raises after the flag is set. |
| Commands.StartListeningImpl | src/application.py:742-765 | Without a protocol client nothing changes. Otherwise keep-listening goes off. From IDLE with the channel closed, the device enters CONNECTING and starts the open-channel coroutine, with no request sent. From IDLE with the channel open, a manual turn is requested and the device enters LISTENING. While SPEAKING it aborts as for a wake word. In CONNECTING or LISTENING nothing else changes. |
| Commands.OpenAndStartManualListening | src/application.py:767-775 | The channel open is requested first. A failed open returns to IDLE with only that request sent, and the last display call is the "打开音频通道失败" alert. A successful open then requests a manual turn and enters LISTENING with the channel open. |
| Commands.ManualOpenFailed | src/application.py:769-772 | A refused open sends only the open request, enters IDLE, and then shows the "打开音频通道失败" alert as the last display call. The queue is untouched. |
| Commands.ManualOpenSucceeded | src/application.py:769-775 | A granted open sends the open request and then one manual start-listening request. It then enters LISTENING with the channel open. The queue is untouched. |
| Commands.ToggleChatStateImpl | src/application.py:781-820 | Without a protocol client nothing changes. From IDLE an auto conversation starts. While SPEAKING it aborts with no reason. While LISTENING the channel close is requested. In CONNECTING nothing changes. |
| Commands.ToggleFromIdle | src/application.py:789-808 | With the channel open, or opened before the second look, keep-listening goes on, an auto-stop turn is requested (after the open request if one was needed), and the device listens. Otherwise the open request goes out, the failure alert is shown, and the device is IDLE again. |
| Commands.EnterConnecting | src/application.py:789-790 | The toggle from IDLE first enters CONNECTING. This sends nothing and leaves keep-listening, the channel flag and the queue as they were. |
| Commands.AbandonOpen | src/application.py:793-801 | The open request is logged, the alert is shown, and CONNECTING falls back to IDLE. |
| Commands.StartAutoListening | src/application.py:803-808 | Keep-listening goes on, an auto-stop turn is requested, and the device enters LISTENING. |
| Commands.OpenThenAutoListen | src/application.py:793-808 | When the open finishes before the second look, the open request and then the auto-stop request are sent, and the device listens with the channel open. |
| Commands.StopListeningImpl | src/application.py:826-833 | Only in LISTENING is the turn stopped: the stop request is sent and the device enters IDLE. In any other state nothing changes. Without a protocol client the send raises before the state changes. |
| Commands.OnModeChanged | src/application.py:938-947 | The mode changes, and the switch reports success, exactly in IDLE. Elsewhere the only effect is the "提示" alert. |
| Reconnect.OnNetworkError | src/application.py:390-396 | A network error schedules the "网络错误" alert and then one reconnect attempt, and changes nothing else. |
| Reconnect.AttemptReconnect | src/application.py:398-416 | While CONNECTING nothing changes. Otherwise the device enters CONNECTING, requests the stale channel closed when a protocol client exists, and starts the delayed reconnect. The playback queue and the task queue are left alone. |
| Reconnect.ConnectLoop | src/application.py:428-440 | At most 3 attempts. Some attempt connects exactly when one of the first three answers is a success, and then the attempts stop at the first success. Otherwise all 3 are made. |
| Reconnect.Reconnect | src/application.py:418-445 | With a protocol client there are between 1 and 3 attempts and the device ends IDLE. It connects exactly when one of the first three answers succeeds, and then no further attempt is made. After three failures exactly one "连接错误" alert is scheduled. No request is sent. Without a protocol client it raises before any attempt. |
| Engine.SetChatMessage | src/application.py:724-729 | The text is stored and shown once as the chat text. |
| Engine.SetEmotion | src/application.py:731-736 | The emotion is stored. Its face is shown unless the value is a list or an object, in which case the lookup raises after the store. |
| Engine.StartAudioStreams | src/application.py:561-585 | If stopping the active capture stream raises, nothing changes. Otherwise capture ends active exactly when its `start_stream` succeeds. Playback is touched only after capture restarted. Then it stays active when its own stop raises, and otherwise ends active exactly when its own start succeeds. So capture can restart while playback ends stopped. |
| Engine.StopAudioStreams | src/application.py:614-625 | If stopping the active capture stream raises, nothing changes. Otherwise capture ends inactive, and playback ends inactive unless it was active and its own stop raised. So capture can stop while playback stays active. When both stops work, both streams end inactive. |
| EngineFacts.ExecExtends | src/application.py:260-270 | Whatever a scheduled task does, it only appends to the request, display, listener and playback logs. It keeps the listeners and the protocol client. |
| EngineFacts.DrainExtends | src/application.py:260-270 | A whole drain never retracts a request, a display call, a listener call or a written buffer. |
| Engine.Step | src/application.py:239-258 | One event of the main loop, a callback or a worker. Its per-event contracts are the `EngineFacts.Step*` rows: `StepExtends`, `StepDefersCommands`, `StepChannelEvents`, `StepAudioKeepsQueue` and `StepWorker`. |
| Engine.Run | src/application.py:239-258 | A sequence of events taken in order. `EngineFacts.RunExtends` states that it only extends the logs, and `EngineFacts.RunAppend` that it composes over concatenation. |
| EngineFacts.StepExtends | src/application.py:239-258 | Every event only appends to the logs. |
| EngineFacts.RunExtends | src/application.py:239-258 | Any sequence of events only appends to the logs. |
| EngineFacts.StepDefersCommands | src/application.py:738-824 | A push-to-talk press or release and the auto-conversation toggle only queue their command. They change nothing else until the main loop drains the queue. |
| EngineFacts.StepChannelEvents | src/application.py:556-614 | The channel-opened callback queues the stream restart, and the channel-closed callback queues the stream stop. The channel flag records the event and nothing else changes. |
| EngineFacts.StepAudioKeepsQueue | src/application.py:239-258 | Arriving audio and output cycles never touch the task queue or the device state. A finished worker that is not pending changes nothing. |
| EngineFacts.StepWorker | src/application.py:511-541 | A pending worker finishes by leaving the pending set first and then running its own body on what the rest of the application holds. |
| EngineFacts.TtsMessageSchedules | src/application.py:455-485 | A `{"type":"tts","state":"start"}` or `"stop"` message only appends the matching handler to the task queue. |
| EngineFacts.ScenarioTtsStartWhileListening | src/application.py:497-509 | From LISTENING, a tts start message and one drain leave the device SPEAKING, with an empty queue, the abort flag clear and no task pending. |
| EngineFacts.AudioArrives | src/application.py:447-453 | While SPEAKING, arriving packets join the playback queue's tail in arrival order, and nothing else changes. |
| EngineFacts.StopThenFinish | src/application.py:511-541 | While SPEAKING with nothing pending, the stop message, its drain and its worker together amount to the worker's transition. |
| EngineFacts.ScenarioTtsStopKeepListening | src/application.py:511-541 | From SPEAKING with keep-listening on, packets arrive and then a tts stop is dispatched, drained and finished. The device listens with an empty queue and no worker, and the only request sent is one auto-stop start-listening. |
| EngineFacts.ScenarioTtsStopManual | src/application.py:511-541 | The same sequence with keep-listening off ends IDLE with an empty queue and no request sent. Playback is stopped unless it was active and stopping it raises. |
| EngineFacts.ScenarioReconnectExhausted | src/application.py:390-445 | A network error whose three reconnect attempts all fail works as follows. The error alert is shown, the stale channel is closed once, and the device ends IDLE with no worker pending. Exactly one connection alert is queued. |
| EngineFacts.PressTalkDrains | src/application.py:738-742 | A push-to-talk press followed by a drain is exactly one run of the start-listening command. |
| EngineFacts.ScenarioManualStart | src/application.py:742-775 | From IDLE with the channel closed, push-to-talk leaves the device CONNECTING with the open coroutine pending and keep-listening off. If the channel opens, the open request and one manual start-listening are sent, and the device listens. If it does not open, the device is IDLE, only the open request is sent, and the failure alert is the last display call. |
| EngineFacts.AbortStaysSpeaking | src/application.py:835-851 | Push-to-talk while SPEAKING sends one wake-word abort, raises the flag, starts the relisten timer, and leaves the device SPEAKING with its queue. |
| EngineFacts.AbortedCycleDrops | src/application.py:326-332 | After an abort, the next output cycle empties the queue, writes nothing, and stays in SPEAKING. |
| EngineFacts.ReconnectKeepsQueue | src/application.py:398-404 | A network error while SPEAKING reaches CONNECTING with the queued audio still in place. |
| EngineFacts.IdleKeepsCapture | src/application.py:826-833 | Releasing push-to-talk ends in IDLE with capture exactly as it was. Playback is stopped unless it was active and stopping it raises. |
| JsonValue.In | src/vision/vision_config.py:47-49 | Python `in` raises exactly on a number, a bool or null. On an object it tests the keys. |
| Strings.Split | src/utils/Camera.py:92 | Splitting on `.` gives at least one field. No field holds the separator, and joining the fields gives the path back. |
| Strings.SplitJoin | src/utils/Camera.py:105 | Splitting the join of separator-free fields gives the fields back. |
| CameraConfig.MergeConfigs | src/utils/Camera.py:74-83 | The merged keys are the union of both sides. A key only the defaults hold keeps its default. A key in the stored file wins unless both sides hold an object there, and two objects are merged recursively. The defaults argument itself is never modified. |
| CameraConfig.MergeSelf | src/utils/Camera.py:74-83 | Merging a configuration under itself gives it back. |
| CameraConfig.MergeEmpty | src/utils/Camera.py:74-83 | Merging an empty file over the defaults gives the defaults. |
| CameraConfig.MergeKeepsCustomLeaves | src/utils/Camera.py:74-83 | Every non-object value the file holds at some path is also what the merged configuration holds there. |
| CameraConfig.LoadConfig | src/utils/Camera.py:46-59 | The loaded configuration holds every default key. A missing file, an unparsable file, or a file that is not an object gives the defaults. A stored object gives the union of keys, with every stored value winning. |
| CameraConfig.Lookup | src/utils/Camera.py:90-96 | An empty path gives the value itself. A step into a non-object, or into a missing key, finds nothing. |
| CameraConfig.LookupAppend | src/utils/Camera.py:91-94 | A lookup along `a + b` is a lookup along `a` and then along `b`. |
| CameraConfig.GetConfig | src/utils/Camera.py:85-96 | `get_config` returns the value at the dotted path when every step finds an object holding the key, and the caller's default otherwise. |
| CameraConfig.Assign | src/utils/Camera.py:104-108 | Without intermediate levels the store always happens. An existing first level that is not an object stops the write at once, with nothing changed. |
| CameraConfig.AssignKeepsKeys | src/utils/Camera.py:104-108 | A write never removes a top-level key, whether it completes or raises. |
| CameraConfig.AssignFreshSucceeds | src/utils/Camera.py:104-108 | Writing below levels that `setdefault` created itself always succeeds. |
| CameraConfig.AssignFailsCleanly | src/utils/Camera.py:104-112 | A write that raises has changed nothing. |
| CameraConfig.AssignFailsIffBlocked | src/utils/Camera.py:104-112 | A write raises exactly when some level on its path already exists and is not an object. |
| CameraConfig.AssignThenLookup | src/utils/Camera.py:104-108 | After a successful write, reading the same path gives the written value. |
| CameraConfig.AssignFrame | src/utils/Camera.py:104-108 | A write leaves every other top-level key, and its value, as it was. |
| CameraConfig.DottedPath | src/utils/Camera.py:105 | `*parts, last = path.split('.')`: the levels followed by the final key are exactly the dot-separated fields of the path, and the final key holds no dot. |
| CameraConfig.UpdateConfig | src/utils/Camera.py:98-112 | The result is true exactly when the store completed and the save succeeded. |
| CameraConfig.UpdateThenGet | src/utils/Camera.py:85-112 | Unless the path is blocked, `get_config` of the path returns the written value after `update_config`, and the result is what saving answered. When the path is blocked, the configuration is unchanged and the result is false. |
| VisionConfig.DefaultKeysAreDefault | src/vision/vision_config.py:14-20 | The visited key list is exactly the default keys, and the enabled fallback has the same keys. |
| VisionConfig.FillDefaults | src/vision/vision_config.py:46-49 | A stored object keeps its entries and gains each missing default key with its default value. A list or string is returned unchanged when every key is `in` it, and otherwise the loop raises. |
| VisionConfig.LoadVisionConfig | src/vision/vision_config.py:22-57 | A missing or unreadable file gives the defaults with `enabled` on. A stored object keeps its own values, including extra keys, and gains the missing defaults. A list or string holding every key is returned as it is, and any other value falls back to the enabled defaults. |
| VisionConfig.LoadedHoldsDefaults | src/vision/vision_config.py:22-57 | Whatever the file holds, every default key is `in` the loaded settings. |
| VisionConfig.EnabledDependsOnOrigin | src/vision/vision_config.py:32-49 | A first start enables vision, but a stored object without `enabled` is filled with vision disabled. |
| VisionConfig.UpdateVisionConfig | src/vision/vision_config.py:71-78 | A key absent from the loaded settings is rejected without saving. A present key of object settings is replaced, only that key changes, and the result is what saving answered. |
| VisionConfig.UpdateDefaultKeyRoundTrip | src/vision/vision_config.py:71-78 | Updating a default key of object settings always goes through and changes only that key. Loading what was saved gives it back unchanged. |
| StreamReply.DeltaOf | src/utils/VL.py:93-98 | A payload without `choices` contributes nothing. A value `in` cannot search raises. The well-formed shape contributes exactly its non-empty `delta.content`. |
| StreamReply.Classify | src/utils/VL.py:84-100 | Empty lines and lines without the `data: ` prefix are skipped. Exactly the line `data: [DONE]` stops the scan. Bytes that do not decode as UTF-8 fail with the decode error. For any other data line exactly the six-character prefix is removed. A payload `json.loads` rejects is skipped. A decoded payload is skipped when it has no content, appends its content when it has some, and fails with its exception when it has the wrong shape. Only non-empty text is ever appended. |
| StreamReply.Collect | src/utils/VL.py:84-100 | An empty stream, or one whose every line is skipped, answers the empty string. A stream that neither stops nor fails always answers. |
| StreamReply.DoneEndsScan | src/utils/VL.py:89-90 | Nothing after `[DONE]` is read: no later line, however malformed, changes the result. |
| StreamReply.SkipIsInvisible | src/utils/VL.py:85-100 | A line `StreamReply.Classify` skips can be removed anywhere in the stream without changing the result. By that contract, the skipped lines are the empty line, the non-data line, and the data line whose payload `json.loads` rejects or has no content. |
| StreamReply.CollectAppend | src/utils/VL.py:83-102 | A stream that reads through its first part without stopping answers the first part's text followed by the rest's result. |
| StreamReply.DataLineEffect | src/utils/VL.py:87-98 | A data line other than `[DONE]` is classified by its payload alone: skipped when `json.loads` rejects it or it has no content, appended when it has content, failed when it has the wrong shape. |
| StreamReply.DataLineContributes | src/utils/VL.py:87-98 | A one-line stream holding a data line other than `[DONE]` answers that line's content, the empty string when the payload is rejected or has no content, or the payload's fault. |
| StreamReply.DeltasConcatenate | src/utils/VL.py:84-100 | A stream of data lines whose payloads all decode answers their `delta.content` values concatenated in order, with empty contents adding nothing. |
| StreamReply.Render | src/utils/VL.py:102-108 | An answer is returned as it is, and a fault as the "分析图像时出错: " prefix followed by the exception's text. |
| StreamReply.AnalyzeImage | src/utils/VL.py:77-108 | A refused request gives the error string. A streamed response gives the line-by-line reference scan, rendered: the in-order concatenation of the contents up to `[DONE]`, or the error string of the first fault. |
| SystemInfo.MacAddress | src/utils/system_info.py:5-8 | A MAC address exists exactly for nodes below 2^128. Larger values are the `ValueError` of `uuid.UUID`. |
| SystemInfo.MacAddressShape | src/utils/system_info.py:5-8 | The address has 17 characters. Its colon-separated groups are the pairs of the node's last 12 hex digits. Removing the colons gives the last 12 characters of the 32-digit UUID hex. Reading it back gives the node modulo 2^48, which is exactly the node below 2^48. |
| SystemInfo.MacColons | src/utils/system_info.py:8 | A colon stands exactly at positions 2, 5, 8, 11 and 14. |
| SystemInfo.MacGroups | src/utils/system_info.py:6-8 | The address has 17 characters, and splitting it at colons gives the six pairs of the last 12 digits. |
| SystemInfo.Hex | src/utils/system_info.py:6 | The rendering has exactly the requested number of lower-case hex digits. |
| SystemInfo.HexSuffix | src/utils/system_info.py:6 | The last 12 of the 32 UUID digits are the 12-digit rendering of the node. |
| SystemInfo.HexRoundTrip | src/utils/system_info.py:6 | Reading a `w`-digit rendering back gives the number modulo 16^w. |
| SystemInfo.Pairs | src/utils/system_info.py:8 | Twelve digits make six groups, and group `i` is digits `2i` and `2i+1`. |
| SystemInfo.JoinPairsLength | src/utils/system_info.py:8 | Joining `k` two-character groups with `:` gives `3k - 1` characters. |
| SystemInfo.JoinPairsSeparators | src/utils/system_info.py:8 | In joined two-character groups, the separator stands exactly at every third position. |
| SystemInfo.ConcatPairsFrom | src/utils/system_info.py:8 | Gluing the pairs back together gives the digits. |

The `EngineFacts.Scenario*` rows, `EngineFacts.StopThenFinish`, `EngineFacts.PressTalkDrains` and `EngineFacts.AbortStaysSpeaking` follow one event sequence from any starting application that meets their preconditions. They show the handlers working together. The all-input properties are in the other rows.

## Notes on the code's behaviour

The model follows the code, including where its behaviour is easy to misread.

- **Abort.** `abort_speaking` (src/application.py:835-851) only raises the flag and
  sends the request. It neither purges the queue nor changes the state, so the device
  stays SPEAKING. The queue is purged by the next output cycle that sees the flag
  (`EngineFacts.AbortStaysSpeaking`, `EngineFacts.AbortedCycleDrops`). The relisten
  timer after a wake-word abort schedules `_start_listening_impl`, which aborts again if
  the device is still SPEAKING.
- **Leaving SPEAKING.** `set_device_state` does not wait for the playback queue to
  drain. Only the tts-stop worker waits, and only for a bounded time
  (src/application.py:519-523). A network error while SPEAKING reaches CONNECTING with
  the queue intact (`EngineFacts.ReconnectKeepsQueue`).
- **Capture outside LISTENING.** Entering IDLE stops only the playback stream
  (src/application.py:639-647), so capture can be active in IDLE
  (`EngineFacts.IdleKeepsCapture`). A raising `stop_stream` is logged and leaves its
  stream active.
- **Network errors.** `_attempt_reconnect` enters CONNECTING, not IDLE. The device
  reaches IDLE only when the reconnect ends (src/application.py:398-445).
- **Toggle race.** The toggle from IDLE submits the channel open and immediately checks
  again whether the channel is open (src/application.py:793-801). Whether the open
  finished in between is an input (`openedMeanwhile`).
- **No de-duplication.** `schedule` appends every task, including duplicates of tasks
  already pending (src/application.py:272-276).
- **Vision enabled flag.** A missing vision settings file gives vision enabled
  (src/vision/vision_config.py:32-36). A stored object without `enabled` is filled with
  the default, which is disabled (`VisionConfig.EnabledDependsOnOrigin`).

## Left out

- Threads, timers and `time.sleep`: workers are explicit `WorkerDone` events, and the tts-stop worker's bounded wait is not timed. Its purge of the remaining audio is modelled.
- The asyncio loop and `run_coroutine_threadsafe`: requests are appended to the `sent` log when they are submitted, and their completion is not modelled.
- The capture path: `_handle_input_audio`, the input and output trigger threads, and Opus encoding feed nothing back into the modelled state.
- PyAudio and Opus internals: the decoder is a parameter, and stream behaviour is the `Hardware` record.
- The numpy debug statistics and all logging: these use floating point and have no effect.
- The vision and speech-recognition glue (`_init_vision` and everything after it in src/application.py): it blocks on events and the network.
- `_handle_verification_code`: it uses the clipboard and a browser. Its scheduled task is a no-op in the model, and its alert is not modelled.
- Display and user-interface classes, `main.py` and `src/utils/TTS.py`: these are I/O wrappers.
- `generate_uuid` and `get_local_ip`: they depend on randomness and sockets.
- Singleton enforcement and callback registration, including the re-registration in `_reconnect`: this is process-global plumbing with no effect on the modelled state.
- File reads and writes of both settings stores: file contents are inputs, and the result of saving is a boolean. The directory creation and the first-start file write of the loaders are not modelled.
- Python exception messages: the error string's tail is the `describe` parameter.
- The camera capture loop and `capture_frame_to_base64`: this is cv2 and thread lifecycle code.
- JSON floating-point numbers: numbers are integers, since none of the modelled code computes with them.
- The order of dictionary keys: maps are unordered, and no modelled result depends on the order.
- SystemInfo.MacAddress: `uuid.getnode()` is the parameter `node`. The random fallback node it may return is not modelled.
- CameraConfig.AssignFrame: it speaks about top-level keys only. Deeper levels off the path are kept by construction but are not stated.
- Engine.StartAudioStreams: the restarted event-trigger threads are not modelled.
- StateMachine.SetDeviceState: both audio streams are taken to exist. When `_initialize_audio` fails (src/application.py:197-199) the streams stay `None`, and the guards `if self.output_stream` and `if self.input_stream` (src/application.py:643, 653, 662, 670) skip the stream effects. That case is not modelled, so the stream-flag clauses hold only for existing streams.
- StateMachine.EnterEffects: it takes both streams to exist, for the same reason as `StateMachine.SetDeviceState`.
