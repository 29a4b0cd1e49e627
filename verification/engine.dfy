/** The conversation engine of src/application.py as a step system: the
    scheduled-task executor, the drain of the task queue, the deferred
    workers, and one `Step` per event the main loop, the network callbacks,
    the user interface or a worker thread delivers. */
module Engine {
  import opened Wrappers
  import opened JsonValue
  import opened AppTypes
  import opened StateMachine
  import TaskQueue
  import Playback
  import Messages
  import Commands
  import Reconnect

  /** What the world answers during a step: the hardware, the Opus decoder
      and `json.loads` (both partial), whether a toggle's asynchronous channel
      open finished before it looked again, whether a manual start's channel
      open succeeded, and the successive answers of `connect()`. */
  datatype Env = Env(
    hw: Hardware,
    decode: Packet -> Option<Pcm>,
    parse: string -> Option<Json>,
    openedMeanwhile: bool,
    channelOpened: bool,
    connectResults: seq<bool>
  )

  /** `set_chat_message(role, message)`. */
  function SetChatMessage(app: App, text: Json): (r: App)
    ensures Extends(app, r)
    ensures r.tasks == app.tasks
    ensures r.currentText == text && r.display == app.display + [UpdateText(text)]
  {
    app.(currentText := text, display := app.display + [UpdateText(text)])
  }

  /** `set_emotion(emotion)`: store it, then show its face; for a list or
      object value the table lookup raises after the store. Returns whether it raised. */
  function SetEmotion(app: App, e: Json): (r: (App, bool))
    ensures Extends(app, r.0)
    ensures r.0.tasks == app.tasks
    ensures r.0.currentEmotion == e
    ensures r.1 <==> e.JArr? || e.JObj?
    ensures !r.1 ==> r.0.display == app.display + [UpdateEmotion(EmotionOf(e).value)]
    ensures r.1 ==> r.0.display == app.display
  {
    match EmotionOf(e)
    case Some(face) => (app.(currentEmotion := e, display := app.display + [UpdateEmotion(face)]), false)
    case None => (app.(currentEmotion := e), true)
  }

  /** `_start_audio_streams` (scheduled when the audio channel opens): restart
      the input stream, then the output stream, each by stopping it when it is
      active and starting it again. A raising `stop_stream` or `start_stream`
      ends the task with the rest untouched. */
  function StartAudioStreams(app: App, hw: Hardware): (r: App)
    ensures Extends(app, r)
    ensures r.tasks == app.tasks
    // a failed stop of the running input stream ends the task at once
    ensures app.inputActive && hw.input.stopFails ==> r == app
    ensures !(app.inputActive && hw.input.stopFails) ==> r.inputActive == !hw.input.startFails
    // the output stream is touched only once the input stream has restarted
    ensures (app.inputActive && hw.input.stopFails) || hw.input.startFails ==> r.outputActive == app.outputActive
    // then it stays running when its stop raises, and otherwise runs exactly when its start succeeds
    ensures !(app.inputActive && hw.input.stopFails) && !hw.input.startFails ==>
              (r.outputActive <==> (app.outputActive && hw.output.stopFails) || !hw.output.startFails)
  {
    if app.inputActive && hw.input.stopFails then app
    else if hw.input.startFails then app.(inputActive := false)
    else if app.outputActive && hw.output.stopFails then app.(inputActive := true)
    else app.(inputActive := true, outputActive := !hw.output.startFails)
  }

  /** `_stop_audio_streams` (scheduled when the audio channel closes): stop
      the input stream, then the output stream, each only when active; a
      raising `stop_stream` ends the task with the rest untouched. */
  function StopAudioStreams(app: App, hw: Hardware): (r: App)
    ensures Extends(app, r)
    ensures r.tasks == app.tasks
    ensures app.inputActive && hw.input.stopFails ==> r == app
    ensures !(app.inputActive && hw.input.stopFails) ==>
              !r.inputActive && (r.outputActive <==> app.outputActive && hw.output.stopFails)
    // when stopping works on both streams both end inactive
    ensures !hw.input.stopFails && !hw.output.stopFails ==> !r.inputActive && !r.outputActive
  {
    if app.inputActive && hw.input.stopFails then app
    else app.(inputActive := false, outputActive := app.outputActive && hw.output.stopFails)
  }

  /** Run one scheduled task; the flag says whether it raised. No task
      schedules another, and only the emotion update and the stop-listening
      command can raise. */
  function Exec(app: App, t: Task, env: Env): (r: (App, bool))
    ensures r.0.tasks == app.tasks
    ensures r.1 ==> t.EmotionTask? || t.StopListeningTask?
  {
    match t
    case TtsStartTask => (Messages.HandleTtsStart(app, env.hw), false)
    case TtsStopTask => (Messages.HandleTtsStop(app), false)
    case ChatMessageTask(_, text) => (SetChatMessage(app, text), false)
    case VerificationCodeTask(_) => (app, false)
    case EmotionTask(e) => SetEmotion(app, e)
    case AlertTask(title, message) => (ShowAlert(app, title, message), false)
    case AttemptReconnectTask => (Reconnect.AttemptReconnect(app, env.hw), false)
    case StartListeningTask => (Commands.StartListeningImpl(app, env.hw), false)
    case ToggleChatTask => (Commands.ToggleChatStateImpl(app, env.openedMeanwhile, env.hw), false)
    case StopListeningTask => Commands.StopListeningImpl(app, env.hw)
    case StartAudioStreamsTask => (StartAudioStreams(app, env.hw), false)
    case StopAudioStreamsTask => (StopAudioStreams(app, env.hw), false)
  }

  /** `_process_scheduled_tasks`: take the queue, leave it empty, and run
      what was taken; tasks those tasks schedule wait for the next drain. */
  function ProcessScheduledTasks(app: App, env: Env): (r: (App, seq<TaskQueue.Ran<Task>>))
    ensures |r.1| == |app.tasks|
    ensures forall i :: 0 <= i < |app.tasks| ==> r.1[i].task == app.tasks[i]
    // the snapshot is taken and the queue emptied before the first task runs
    ensures |app.tasks| == 0 ==> r == (app, [])
    ensures |app.tasks| > 0 ==> r.1[0] == TaskQueue.Ran(app.tasks[0], Exec(app.(tasks := []), app.tasks[0], env).1)
    // no task schedules another, so the queue ends empty
    ensures r.0.tasks == []
  {
    var run := (a, t) => Exec(a, t, env);
    if |app.tasks| > 0 then
      TaskQueue.RunAllNth(app.(tasks := []), app.tasks, run, 0);
      assert app.tasks[..0] == [];
      TaskQueue.RunAllKeeps(app.(tasks := []), app.tasks, run, (x: App, y: App) => y.tasks == x.tasks);
      TaskQueue.RunAll(app.(tasks := []), app.tasks, run)
    else
      assert app.(tasks := []) == app;
      TaskQueue.RunAll(app.(tasks := []), app.tasks, run)
  }

  /** Remove the worker at index `i`. */
  function Without(workers: seq<Worker>, i: nat): (r: seq<Worker>)
    requires i < |workers|
    ensures |r| == |workers| - 1
  {
    workers[..i] + workers[i + 1..]
  }

  /** A deferred worker finishes and acts on the application. */
  function RunWorker(app: App, w: Worker, env: Env): (r: App)
    // the relisten timer only schedules the start-listening command
    ensures w == RelistenAfterAbort ==> r == app.(tasks := app.tasks + [StartListeningTask])
    // the drain worker always leaves the playback queue empty and schedules nothing
    ensures w == DrainThenTransition ==> r.playback == [] && r.tasks == app.tasks
    // with a protocol client the reconnect coroutine always ends in IDLE
    ensures w == DelayedReconnect && app.hasProtocol ==> r.state == Idle
    // the manual-start coroutine first requests the channel opened
    ensures w == OpenChannelThenListen ==> Prefix(app.sent + [OpenAudioChannel], r.sent) && r.tasks == app.tasks
  {
    match w
    case DrainThenTransition => Messages.FinishSpeaking(app, env.hw).0
    case RelistenAfterAbort => Messages.Enqueue(app, StartListeningTask)
    case DelayedReconnect => Reconnect.Reconnect(app, env.connectResults, env.hw).app
    case OpenChannelThenListen => Commands.OpenAndStartManualListening(app, env.channelOpened, env.hw)
  }

  /** Everything that can happen to the application. */
  datatype Event =
    | IncomingJson(msg: Messages.Incoming)   // protocol callback
    | IncomingAudio(packet: Packet)          // protocol callback
    | NetworkError(message: string)          // protocol callback
    | ChannelOpened                          // protocol callback
    | ChannelClosed                          // protocol callback
    | OutputReady                            // main loop: audio-output event set
    | ScheduleReady                          // main loop: schedule event set
    | PressTalk                              // display: start_listening
    | ReleaseTalk                            // display: stop_listening
    | ToggleAuto                             // display: toggle_chat_state
    | ModeChanged(auto: bool)                // display: mode switch
    | WorkerDone(index: nat)                 // a deferred worker finishes

  /** One event. */
  function Step(app: App, e: Event, env: Env): App
  {
    match e
    case IncomingJson(msg) => Messages.OnIncomingJson(app, msg, env.parse)
    case IncomingAudio(p) => Playback.OnIncomingAudio(app, p)
    case NetworkError(message) => Reconnect.OnNetworkError(app, message)
    case ChannelOpened => Messages.Enqueue(app.(channelOpen := true), StartAudioStreamsTask)
    case ChannelClosed => Messages.Enqueue(app.(channelOpen := false), StopAudioStreamsTask)
    case OutputReady => Playback.HandleOutputAudio(app, env.decode, env.hw)
    case ScheduleReady => ProcessScheduledTasks(app, env).0
    case PressTalk => Messages.Enqueue(app, StartListeningTask)
    case ReleaseTalk => Messages.Enqueue(app, StopListeningTask)
    case ToggleAuto => Messages.Enqueue(app, ToggleChatTask)
    case ModeChanged(auto) => Commands.OnModeChanged(app, auto).0
    case WorkerDone(i) =>
      if i < |app.workers| then RunWorker(app.(workers := Without(app.workers, i)), app.workers[i], env)
      else app
  }

  /** Run a sequence of events in order. */
  function Run(app: App, events: seq<Event>, env: Env): App
    decreases |events|
  {
    if |events| == 0 then app else Run(Step(app, events[0], env), events[1..], env)
  }
}

/** Properties of the engine that span several handlers. */
module EngineFacts {
  import opened Wrappers
  import opened JsonValue
  import opened AppTypes
  import opened StateMachine
  import TaskQueue
  import Playback
  import Messages
  import Commands
  import Reconnect
  import opened Engine

  /** The state-changing tasks keep the logs. */
  lemma ExecExtendsTransitions(app: App, t: Task, env: Env)
    requires t.TtsStartTask? || t.TtsStopTask? || t.AttemptReconnectTask?
    ensures Extends(app, Exec(app, t, env).0)
  {
    if t.TtsStartTask? {
      ExecTtsStart(app, env);
    } else if t.TtsStopTask? {
      ExecTtsStop(app, env);
    } else {
      ExecAttemptReconnect(app, env);
    }
  }

  lemma ExecTtsStart(app: App, env: Env)
    ensures Exec(app, TtsStartTask, env).0 == Messages.HandleTtsStart(app, env.hw)
  {
  }

  lemma ExecTtsStop(app: App, env: Env)
    ensures Exec(app, TtsStopTask, env).0 == Messages.HandleTtsStop(app)
  {
  }

  /** The user-command tasks keep the logs. */
  lemma ExecExtendsCommands(app: App, t: Task, env: Env)
    requires t.StartListeningTask? || t.ToggleChatTask? || t.StopListeningTask?
    ensures Extends(app, Exec(app, t, env).0)
  {
    var r := Exec(app, t, env).0;
    if t.StartListeningTask? {
      assert r == Commands.StartListeningImpl(app, env.hw);
    } else if t.ToggleChatTask? {
      assert r == Commands.ToggleChatStateImpl(app, env.openedMeanwhile, env.hw);
    } else {
      assert r == Commands.StopListeningImpl(app, env.hw).0;
    }
  }

  /** The display and audio-stream tasks keep the logs. */
  lemma ExecExtendsDisplay(app: App, t: Task, env: Env)
    requires !(t.TtsStartTask? || t.TtsStopTask? || t.AttemptReconnectTask?)
    requires !(t.StartListeningTask? || t.ToggleChatTask? || t.StopListeningTask?)
    ensures Extends(app, Exec(app, t, env).0)
  {
    match t
    case ChatMessageTask(_, text) =>
      assert Exec(app, t, env).0 == SetChatMessage(app, text);
    case VerificationCodeTask(_) => ExtendsRefl(app);
    case EmotionTask(e) =>
      assert Exec(app, t, env).0 == SetEmotion(app, e).0;
    case AlertTask(title, message) =>
      assert Exec(app, t, env).0 == ShowAlert(app, title, message);
    case StartAudioStreamsTask => ExtendsRefl(app);
    case StopAudioStreamsTask => ExtendsRefl(app);
  }

  /** Whatever a task does, it only appends to the logs. */
  lemma ExecExtends(app: App, t: Task, env: Env)
    ensures Extends(app, Exec(app, t, env).0)
  {
    if t.TtsStartTask? || t.TtsStopTask? || t.AttemptReconnectTask? {
      ExecExtendsTransitions(app, t, env);
    } else if t.StartListeningTask? || t.ToggleChatTask? || t.StopListeningTask? {
      ExecExtendsCommands(app, t, env);
    } else {
      ExecExtendsDisplay(app, t, env);
    }
  }

  /** A drain never retracts a protocol request, a display call, a listener
      call or a written buffer, whatever the drained tasks do. */
  lemma DrainExtends(app: App, env: Env)
    ensures Extends(app, ProcessScheduledTasks(app, env).0)
  {
    var run := (a, t) => Exec(a, t, env);
    forall x: App, t: Task ensures Extends(x, run(x, t).0) {
      ExecExtends(x, t, env);
    }
    TaskQueue.RunAllKeeps(app.(tasks := []), app.tasks, run, (x, y) => Extends(x, y));
  }

  /** A finishing worker only appends to the logs. */
  lemma WorkerExtends(app: App, w: Worker, env: Env)
    ensures Extends(app, RunWorker(app, w, env))
  {
    match w
    case DrainThenTransition =>
    case RelistenAfterAbort => ExtendsRefl(app);
    case DelayedReconnect =>
    case OpenChannelThenListen =>
  }

  /** User commands are deferred to the main loop: each only queues its task. */
  lemma StepDefersCommands(app: App, env: Env)
    ensures Step(app, PressTalk, env) == app.(tasks := app.tasks + [StartListeningTask])
    ensures Step(app, ReleaseTalk, env) == app.(tasks := app.tasks + [StopListeningTask])
    ensures Step(app, ToggleAuto, env) == app.(tasks := app.tasks + [ToggleChatTask])
  {
  }

  /** Channel events record the channel and queue the stream restart or stop. */
  lemma StepChannelEvents(app: App, env: Env)
    ensures Step(app, ChannelOpened, env) == app.(channelOpen := true, tasks := app.tasks + [StartAudioStreamsTask])
    ensures Step(app, ChannelClosed, env) == app.(channelOpen := false, tasks := app.tasks + [StopAudioStreamsTask])
  {
  }

  /** Audio arrival and output cycles never touch the task queue or the device
      state, and a worker that is not pending changes nothing. */
  lemma StepAudioKeepsQueue(app: App, e: Event, env: Env)
    ensures e.IncomingAudio? || e.OutputReady? ==> Step(app, e, env).tasks == app.tasks && Step(app, e, env).state == app.state
    ensures e.WorkerDone? && e.index >= |app.workers| ==> Step(app, e, env) == app
  {
  }

  /** Every event only appends to the logs. */
  lemma StepExtends(app: App, e: Event, env: Env)
    ensures Extends(app, Step(app, e, env))
  {
    match e
    case ScheduleReady => DrainExtends(app, env);
    case WorkerDone(i) => WorkerDoneExtends(app, i, env);
    case _ => ExtendsRefl(app);
  }

  lemma WorkerDoneExtends(app: App, i: nat, env: Env)
    ensures Extends(app, Step(app, WorkerDone(i), env))
  {
    ExtendsRefl(app);
    if i < |app.workers| {
      var a := app.(workers := Without(app.workers, i));
      ExtendsRefl(a);
      WorkerExtends(a, app.workers[i], env);
    }
  }

  /** Any run of events only appends to the logs. */
  lemma {:induction false} RunExtends(app: App, events: seq<Event>, env: Env)
    ensures Extends(app, Run(app, events, env))
    decreases |events|
  {
    if |events| == 0 {
      ExtendsRefl(app);
    } else {
      StepExtends(app, events[0], env);
      RunExtends(Step(app, events[0], env), events[1..], env);
    }
  }

  lemma RunTwo(app: App, e1: Event, e2: Event, env: Env)
    ensures Run(app, [e1, e2], env) == Step(Step(app, e1, env), e2, env)
  {
    var a := Step(app, e1, env);
    assert [e1, e2][1..] == [e2];
    assert Run(app, [e1, e2], env) == Run(a, [e2], env);
    assert [e2][1..] == [];
    assert Run(a, [e2], env) == Run(Step(a, e2, env), [], env);
  }

  lemma RunThree(app: App, e1: Event, e2: Event, e3: Event, env: Env)
    ensures Run(app, [e1, e2, e3], env) == Step(Step(Step(app, e1, env), e2, env), e3, env)
  {
    assert [e1, e2, e3][1..] == [e2, e3];
    assert Run(app, [e1, e2, e3], env) == Run(Step(app, e1, env), [e2, e3], env);
    RunTwo(Step(app, e1, env), e2, e3, env);
  }

  /** A drain of a single queued task runs that task on the emptied queue. */
  lemma DrainOne(app: App, t: Task, env: Env)
    requires app.tasks == [t]
    ensures Step(app, ScheduleReady, env) == Exec(app.(tasks := []), t, env).0
  {
    var run := (a, t) => Exec(a, t, env);
    var s1 := run(app.(tasks := []), t).0;
    assert [t][1..] == [];
    assert TaskQueue.RunAll(app.(tasks := []), [t], run).0 == TaskQueue.RunAll(s1, [], run).0;
  }

  /** A drain of two queued tasks runs them in order. */
  lemma DrainTwo(app: App, t1: Task, t2: Task, env: Env)
    requires app.tasks == [t1, t2]
    ensures Step(app, ScheduleReady, env) == Exec(Exec(app.(tasks := []), t1, env).0, t2, env).0
  {
    var run := (a, t) => Exec(a, t, env);
    var s1 := run(app.(tasks := []), t1).0;
    var s2 := run(s1, t2).0;
    assert [t1, t2][1..] == [t2];
    assert [t2][1..] == [];
    assert TaskQueue.RunAll(app.(tasks := []), [t1, t2], run).0 == TaskQueue.RunAll(s1, [t2], run).0;
    assert TaskQueue.RunAll(s1, [t2], run).0 == TaskQueue.RunAll(s2, [], run).0;
  }

  /** `{"type": "tts", "state": s}`. */
  function TtsMessage(s: string): Messages.Incoming
  {
    Messages.Decoded(JObj(map["type" := JStr("tts"), "state" := JStr(s)]))
  }

  lemma TtsFields(s: string, parse: string -> Option<JsonValue.Json>)
    ensures Messages.Payload(TtsMessage(s), parse) == Some(JObj(map["type" := JStr("tts"), "state" := JStr(s)]))
    ensures Messages.Field(map["type" := JStr("tts"), "state" := JStr(s)], "type") == JStr("tts")
    ensures Messages.Field(map["type" := JStr("tts"), "state" := JStr(s)], "state") == JStr(s)
  {
  }

  /** A tts message only schedules the matching task. */
  lemma TtsMessageSchedules(app: App, s: string, env: Env)
    requires s == "start" || s == "stop"
    ensures Step(app, IncomingJson(TtsMessage(s)), env)
            == app.(tasks := app.tasks + [if s == "start" then TtsStartTask else TtsStopTask])
  {
    var fields := map["type" := JStr("tts"), "state" := JStr(s)];
    TtsFields(s, env.parse);
    var r := Messages.OnIncomingJson(app, TtsMessage(s), env.parse);
    assert r == Messages.HandleTtsMessage(app, fields) by {
      assert r == Messages.Dispatch(app, fields);
    }
    assert Step(app, IncomingJson(TtsMessage(s)), env) == r;
  }

  /** LISTENING, then `{"type":"tts","state":"start"}` and a drain: the stale
      queue is gone and the device speaks. */
  lemma ScenarioTtsStartWhileListening(app: App, env: Env)
    requires app.state == Listening && app.tasks == []
    ensures var r := Run(app, [IncomingJson(TtsMessage("start")), ScheduleReady], env);
            r.state == Speaking && r.playback == [] && !r.aborted && r.tasks == []
  {
    RunTwo(app, IncomingJson(TtsMessage("start")), ScheduleReady, env);
    TtsMessageSchedules(app, "start", env);
    var a := app.(tasks := [TtsStartTask]);
    DrainOne(a, TtsStartTask, env);
    assert a.(tasks := []) == app;
  }

  /** Running `a + b` is running `a`, then `b`. */
  lemma {:induction false} RunAppend(app: App, a: seq<Event>, b: seq<Event>, env: Env)
    ensures Run(app, a + b, env) == Run(Run(app, a, env), b, env)
    decreases |a|
  {
    if |a| == 0 {
      assert a + b == b;
    } else {
      assert (a + b)[0] == a[0];
      assert (a + b)[1..] == a[1..] + b;
      RunAppend(Step(app, a[0], env), a[1..], b, env);
    }
  }

  /** One `IncomingAudio` event per packet. */
  function AudioEvents(packets: seq<Packet>): (events: seq<Event>)
    ensures |events| == |packets|
    ensures forall i :: 0 <= i < |packets| ==> events[i] == IncomingAudio(packets[i])
  {
    if |packets| == 0 then [] else [IncomingAudio(packets[0])] + AudioEvents(packets[1..])
  }

  /** `f` applied along `xs`, front to back. */
  function Fold<S, E>(s: S, xs: seq<E>, f: (S, E) -> S): S
    decreases |xs|
  {
    if |xs| == 0 then s else Fold(f(s, xs[0]), xs[1..], f)
  }

  /** Running events is folding `Step` over them. */
  lemma {:induction false} RunIsFold(app: App, events: seq<Event>, env: Env)
    ensures Run(app, events, env) == Fold(app, events, (a: App, e: Event) => Step(a, e, env))
    decreases |events|
  {
    if |events| > 0 {
      RunIsFold(Step(app, events[0], env), events[1..], env);
    }
  }

  lemma FoldCons<S, E>(s: S, x: E, xs: seq<E>, f: (S, E) -> S)
    ensures Fold(s, [x] + xs, f) == Fold(f(s, x), xs, f)
  {
    assert ([x] + xs)[1..] == xs;
  }

  /** `wrap` applied to each of `ps`. */
  function Lift<P, E>(ps: seq<P>, wrap: P -> E): (xs: seq<E>)
    ensures |xs| == |ps|
    ensures forall i :: 0 <= i < |ps| ==> xs[i] == wrap(ps[i])
  {
    if |ps| == 0 then [] else [wrap(ps[0])] + Lift(ps[1..], wrap)
  }

  /** `push` applied along `ps`, front to back. */
  function PushAll<S, P>(s: S, ps: seq<P>, push: (S, P) -> S): S
    decreases |ps|
  {
    if |ps| == 0 then s else PushAll(push(s, ps[0]), ps[1..], push)
  }

  /** A step function that acts on wrapped items as `push` does, from states
      `inv` holds in and keeps, folds a wrapped sequence as `push` would. */
  lemma {:induction false} FoldLift<S, P, E>(s: S, ps: seq<P>, wrap: P -> E, f: (S, E) -> S, push: (S, P) -> S, inv: S -> bool)
    requires inv(s)
    requires forall t: S, p: P :: inv(t) ==> f(t, wrap(p)) == push(t, p) && inv(push(t, p))
    ensures Fold(s, Lift(ps, wrap), f) == PushAll(s, ps, push)
    decreases |ps|
  {
    if |ps| > 0 {
      FoldCons(s, wrap(ps[0]), Lift(ps[1..], wrap), f);
      FoldLift(push(s, ps[0]), ps[1..], wrap, f, push, inv);
    }
  }

  /** Queueing packets one at a time appends them in order and changes nothing else. */
  lemma {:induction false} QueueAll(app: App, packets: seq<Packet>)
    ensures PushAll(app, packets, (a: App, p: Packet) => a.(playback := a.playback + [p]))
            == app.(playback := app.playback + packets)
    decreases |packets|
  {
    if |packets| > 0 {
      QueueAll(app.(playback := app.playback + [packets[0]]), packets[1..]);
      assert app.playback + [packets[0]] + packets[1..] == app.playback + packets;
    } else {
      assert app.playback + packets == app.playback;
    }
  }

  lemma AudioIsLift(packets: seq<Packet>)
    ensures AudioEvents(packets) == Lift(packets, (p: Packet) => IncomingAudio(p))
  {
  }

  /** While SPEAKING, arriving packets join the queue's tail in arrival order
      and nothing else changes. */
  lemma AudioArrives(app: App, packets: seq<Packet>, env: Env)
    requires app.state == Speaking
    ensures Run(app, AudioEvents(packets), env) == app.(playback := app.playback + packets)
  {
    var f := (a: App, e: Event) => Step(a, e, env);
    var wrap := (p: Packet) => IncomingAudio(p);
    var push := (a: App, p: Packet) => a.(playback := a.playback + [p]);
    var inv := (a: App) => a.state == Speaking;
    RunIsFold(app, AudioEvents(packets), env);
    AudioIsLift(packets);
    forall a: App, p: Packet | inv(a)
      ensures f(a, wrap(p)) == push(a, p) && inv(push(a, p))
    {
      assert f(a, wrap(p)) == Playback.OnIncomingAudio(a, p);
    }
    FoldLift(app, packets, wrap, f, push, inv);
    QueueAll(app, packets);
  }

  /** The events that end a reply. */
  function StopEvents(): seq<Event>
  {
    [IncomingJson(TtsMessage("stop")), ScheduleReady, WorkerDone(0)]
  }

  lemma DrainStop(a: App, env: Env)
    requires a.state == Speaking && a.tasks == [] && a.workers == []
    ensures Step(a.(tasks := [TtsStopTask]), ScheduleReady, env) == a.(workers := [DrainThenTransition])
  {
    DrainOne(a.(tasks := [TtsStopTask]), TtsStopTask, env);
    assert a.(tasks := [TtsStopTask]).(tasks := []) == a;
  }

  lemma FinishWorker(a: App, env: Env)
    requires a.workers == []
    ensures Step(a.(workers := [DrainThenTransition]), WorkerDone(0), env) == Messages.FinishSpeaking(a, env.hw).0
  {
    var c := a.(workers := [DrainThenTransition]);
    StepWorker(c, 0, env);
    assert Without(c.workers, 0) == [];
    assert c.(workers := []) == a;
  }

  lemma StepWorker(app: App, i: nat, env: Env)
    requires i < |app.workers|
    ensures Step(app, WorkerDone(i), env) == RunWorker(app.(workers := Without(app.workers, i)), app.workers[i], env)
  {
  }

  /** While SPEAKING with nothing queued or pending, the stop message, its drain
      and its worker amount to the worker's transition. */
  lemma StopThenFinish(a: App, env: Env)
    requires a.state == Speaking && a.tasks == [] && a.workers == []
    ensures Run(a, StopEvents(), env) == Messages.FinishSpeaking(a, env.hw).0
  {
    var tail := StopEvents();
    RunThree(a, tail[0], tail[1], tail[2], env);
    TtsMessageSchedules(a, "stop", env);
    DrainStop(a, env);
    FinishWorker(a, env);
  }

  /** SPEAKING with keep-listening on: packets arrive, `{"type":"tts","state":"stop"}`
      is dispatched and drained, and its worker finishes: the leftover audio is
      dropped, an auto-stop listening turn is requested and the device listens. */
  lemma ScenarioTtsStopKeepListening(app: App, packets: seq<Packet>, env: Env)
    requires app.state == Speaking && app.keepListening && app.hasProtocol
    requires app.tasks == [] && app.workers == []
    ensures var r := Run(app, AudioEvents(packets) + StopEvents(), env);
            r.state == Listening && r.playback == [] && r.workers == []
            && r.sent == app.sent + [SendStartListening(AutoStop)]
  {
    RunAppend(app, AudioEvents(packets), StopEvents(), env);
    AudioArrives(app, packets, env);
    StopThenFinish(app.(playback := app.playback + packets), env);
  }

  /** SPEAKING with keep-listening off: the same sequence ends IDLE with no
      request sent and the playback stream stopped. */
  lemma ScenarioTtsStopManual(app: App, packets: seq<Packet>, env: Env)
    requires app.state == Speaking && !app.keepListening
    requires app.tasks == [] && app.workers == []
    ensures var r := Run(app, AudioEvents(packets) + StopEvents(), env);
            && r.state == Idle && r.playback == [] && r.sent == app.sent
            && (r.outputActive <==> app.outputActive && env.hw.output.stopFails)
  {
    RunAppend(app, AudioEvents(packets), StopEvents(), env);
    AudioArrives(app, packets, env);
    StopThenFinish(app.(playback := app.playback + packets), env);
  }

  lemma NetworkErrorSchedules(app: App, message: string, env: Env)
    ensures Step(app, NetworkError(message), env)
            == app.(tasks := app.tasks + [AlertTask(Reconnect.NetworkErrorTitle, message), AttemptReconnectTask])
  {
  }

  lemma DrainNetworkError(app: App, message: string, env: Env)
    requires app.state != Connecting && app.hasProtocol && app.tasks == []
    ensures var b := Step(app.(tasks := [AlertTask(Reconnect.NetworkErrorTitle, message), AttemptReconnectTask]), ScheduleReady, env);
            && b.state == Connecting && b.hasProtocol && b.tasks == [] && b.workers == app.workers + [DelayedReconnect]
            && b.sent == app.sent + [CloseAudioChannel]
            && |b.display| > |app.display| && b.display[|app.display|] == Alert(Reconnect.NetworkErrorTitle, message)
  {
    var q := app.(tasks := [AlertTask(Reconnect.NetworkErrorTitle, message), AttemptReconnectTask]);
    DrainTwo(q, AlertTask(Reconnect.NetworkErrorTitle, message), AttemptReconnectTask, env);
    assert q.(tasks := []) == app;
    var a1 := ShowAlert(app, Reconnect.NetworkErrorTitle, message);
    ExecAlert(app, Reconnect.NetworkErrorTitle, message, env);
    ExecAttemptReconnect(a1, env);
    AlertThenReconnect(app, message, env.hw);
  }

  /** The two scheduled closures of a network error, run by hand. */
  lemma AlertThenReconnect(app: App, message: string, hw: Hardware)
    requires app.state != Connecting && app.hasProtocol && app.tasks == []
    ensures var b := Reconnect.AttemptReconnect(ShowAlert(app, Reconnect.NetworkErrorTitle, message), hw);
            && b.state == Connecting && b.hasProtocol && b.tasks == [] && b.workers == app.workers + [DelayedReconnect]
            && b.sent == app.sent + [CloseAudioChannel]
            && |b.display| > |app.display| && b.display[|app.display|] == Alert(Reconnect.NetworkErrorTitle, message)
  {
    var a1 := ShowAlert(app, Reconnect.NetworkErrorTitle, message);
    var b := Reconnect.AttemptReconnect(a1, hw);
    PrefixAt(a1.display, b.display, |app.display|);
  }

  lemma ExecAlert(app: App, title: string, message: string, env: Env)
    ensures Exec(app, AlertTask(title, message), env).0 == ShowAlert(app, title, message)
  {
  }

  lemma ExecAttemptReconnect(app: App, env: Env)
    ensures Exec(app, AttemptReconnectTask, env).0 == Reconnect.AttemptReconnect(app, env.hw)
  {
  }

  lemma ReconnectWorkerFails(b: App, env: Env)
    requires b.hasProtocol && |b.workers| == 1 && b.workers[0] == DelayedReconnect
    requires forall i :: 0 <= i < |env.connectResults| ==> !env.connectResults[i]
    ensures var r := Step(b, WorkerDone(0), env);
            && r.state == Idle && r.workers == []
            && r.tasks == b.tasks + [AlertTask(Reconnect.ConnectErrorTitle, Reconnect.ReconnectFailed)]
            && r.sent == b.sent && Extends(b, r)
  {
    assert Without(b.workers, 0) == [];
    var rc := Reconnect.Reconnect(b.(workers := []), env.connectResults, env.hw);
    assert Step(b, WorkerDone(0), env) == rc.app;
    assert !rc.connected by {
      forall i | 0 <= i < Reconnect.MaxRetries ensures !Reconnect.Answer(env.connectResults, i) {
      }
    }
    assert rc.app.workers == [] by {
      assert Extends(b.(workers := []), rc.app);
    }
  }

  /** A network error whose reconnect never succeeds: the error alert and the
      reconnect attempt are drained, the device passes through CONNECTING, the
      delayed reconnect makes its three attempts, and exactly one connection
      alert is queued with the device left IDLE. */
  lemma ScenarioReconnectExhausted(app: App, message: string, env: Env)
    requires app.hasProtocol && app.state != Connecting
    requires app.tasks == [] && app.workers == []
    requires forall i :: 0 <= i < |env.connectResults| ==> !env.connectResults[i]
    ensures var r := Run(app, [NetworkError(message), ScheduleReady, WorkerDone(0)], env);
            && r.state == Idle && r.workers == []
            && r.tasks == [AlertTask(Reconnect.ConnectErrorTitle, Reconnect.ReconnectFailed)]
            && r.sent == app.sent + [CloseAudioChannel]
            && |r.display| > |app.display| && r.display[|app.display|] == Alert(Reconnect.NetworkErrorTitle, message)
  {
    RunThree(app, NetworkError(message), ScheduleReady, WorkerDone(0), env);
    var q := app.(tasks := [AlertTask(Reconnect.NetworkErrorTitle, message), AttemptReconnectTask]);
    NetworkErrorSchedules(app, message, env);
    assert Step(app, NetworkError(message), env) == q;
    DrainNetworkError(app, message, env);
    var b := Step(q, ScheduleReady, env);
    ReconnectWorkerFails(b, env);
    var r := Step(b, WorkerDone(0), env);
    PrefixAt(b.display, r.display, |app.display|);
  }

  lemma PrefixAt<T>(x: seq<T>, y: seq<T>, i: nat)
    requires Prefix(x, y) && i < |x|
    ensures y[i] == x[i]
  {
    assert y[..|x|][i] == y[i];
  }

  /** A push-to-talk press only schedules the start-listening command. */
  lemma PressTalkDrains(app: App, env: Env)
    requires app.tasks == []
    ensures Run(app, [PressTalk, ScheduleReady], env) == Commands.StartListeningImpl(app, env.hw)
  {
    RunTwo(app, PressTalk, ScheduleReady, env);
    var a := app.(tasks := [StartListeningTask]);
    assert Step(app, PressTalk, env) == a;
    DrainOne(a, StartListeningTask, env);
    assert a.(tasks := []) == app;
  }

  lemma OpenWorker(b: App, env: Env)
    requires |b.workers| == 1 && b.workers[0] == OpenChannelThenListen
    ensures Step(b, WorkerDone(0), env) == Commands.OpenAndStartManualListening(b.(workers := []), env.channelOpened, env.hw)
  {
    assert Without(b.workers, 0) == [];
  }

  /** IDLE with the channel closed, push-to-talk: CONNECTING while the channel
      open is requested; when it opens, a manual turn is requested and the
      device listens; when it does not, the device is IDLE again and the user
      is alerted. */
  lemma ScenarioManualStart(app: App, env: Env)
    requires app.hasProtocol && app.state == Idle && !app.channelOpen
    requires app.tasks == [] && app.workers == []
    ensures var mid := Run(app, [PressTalk, ScheduleReady], env);
            mid.state == Connecting && mid.workers == [OpenChannelThenListen] && !mid.keepListening
    ensures var r := Run(app, [PressTalk, ScheduleReady, WorkerDone(0)], env);
            && (env.channelOpened ==> r.state == Listening && r.sent == app.sent + [OpenAudioChannel, SendStartListening(Manual)])
            && (!env.channelOpened ==> r.state == Idle && r.sent == app.sent + [OpenAudioChannel] && |r.display| > 0
                                       && r.display[|r.display| - 1] == Alert(StateMachine.ErrorTitle, Commands.OpenChannelFailed))
  {
    PressTalkDrains(app, env);
    var b := Commands.StartListeningImpl(app, env.hw);
    RunAppend(app, [PressTalk, ScheduleReady], [WorkerDone(0)], env);
    assert [PressTalk, ScheduleReady] + [WorkerDone(0)] == [PressTalk, ScheduleReady, WorkerDone(0)];
    assert Run(b, [WorkerDone(0)], env) == Step(b, WorkerDone(0), env) by {
      assert [WorkerDone(0)][1..] == [];
    }
    OpenWorker(b, env);
  }

  /** A push-to-talk while SPEAKING aborts as for a wake word but does not
      leave SPEAKING: the abort is requested, the flag is raised and the
      relisten timer starts. */
  lemma AbortStaysSpeaking(app: App, env: Env)
    requires app.hasProtocol && app.state == Speaking && app.tasks == []
    ensures var r := Run(app, [PressTalk, ScheduleReady], env);
            && r.state == Speaking && r.aborted && !r.keepListening
            && r.playback == app.playback
            && r.sent == app.sent + [SendAbortSpeaking(WakeWordDetected)]
            && r.workers == app.workers + [RelistenAfterAbort]
  {
    PressTalkDrains(app, env);
  }

  /** After an abort the next output cycle empties the queue and writes nothing. */
  lemma AbortedCycleDrops(app: App, env: Env)
    requires app.state == Speaking && app.aborted && (app.outputActive || !env.hw.output.startFails)
    ensures var r := Step(app, OutputReady, env);
            r.playback == [] && r.played == app.played && r.state == Speaking
  {
  }

  /** A network error while SPEAKING moves to CONNECTING with the queued
      audio still in place: leaving SPEAKING does not by itself empty the queue. */
  lemma ReconnectKeepsQueue(app: App, hw: Hardware)
    requires app.state == Speaking
    ensures var r := Reconnect.AttemptReconnect(app, hw);
            r.state == Connecting && r.playback == app.playback
  {
  }

  /** Releasing push-to-talk ends the turn in IDLE but leaves the capture
      stream running: entering IDLE stops only the playback stream. */
  lemma IdleKeepsCapture(app: App, hw: Hardware)
    requires app.state == Listening && app.hasProtocol
    ensures var r := Commands.StopListeningImpl(app, hw).0;
            && r.state == Idle && r.inputActive == app.inputActive
            && (r.outputActive <==> app.outputActive && hw.output.stopFails)
  {
  }
}
