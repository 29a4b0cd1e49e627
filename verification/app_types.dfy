/** The entities of the conversation engine (src/application.py): device
    states, protocol requests, display calls, scheduled tasks, deferred
    workers, and the immutable application record every handler steps. */
module AppTypes {
  import opened JsonValue

  /** The turn-taking phase of the device. */
  datatype DeviceState = Idle | Connecting | Listening | Speaking

  /** Who ends a listening turn: the user (Manual) or the server (AutoStop). */
  datatype ListeningMode = Manual | AutoStop

  /** Why a speaking turn was cut short; `NoReason` is the protocol's NONE. */
  datatype AbortReason = NoReason | WakeWordDetected

  type byte = b: int | 0 <= b < 256

  /** One Opus-encoded audio frame as received from the network. */
  type Packet = seq<byte>

  /** Decoded 16-bit little-endian PCM bytes. */
  type Pcm = seq<byte>

  /** What the application asks the protocol client to send or do; the
      coroutines are submitted in this order and their results are not awaited. */
  datatype Request =
    | SendStartListening(mode: ListeningMode)
    | SendStopListening
    | SendAbortSpeaking(reason: AbortReason)
    | OpenAudioChannel
    | CloseAudioChannel

  /** A call on the display. `Alert` is what `alert(title, message)` shows
      (the display renders it as `update_text(f"{title}: {message}")`). */
  datatype DisplayCall =
    | UpdateStatus(status: string)
    | UpdateEmotion(symbol: string)
    | UpdateText(text: Json)
    | Alert(title: string, message: string)

  /** A registered state-change callback; `raises` says whether calling it throws. */
  datatype Listener = Listener(id: nat, raises: bool)

  /** One invocation of a state-change callback and whether it raised. */
  datatype ListenerCall = ListenerCall(id: nat, state: DeviceState, raised: bool)

  /** The closures the application hands to `schedule`. */
  datatype Task =
    | TtsStartTask
    | TtsStopTask
    | ChatMessageTask(role: string, text: Json)
    | VerificationCodeTask(text: Json)
    | EmotionTask(emotion: Json)
    | AlertTask(title: string, message: string)
    | AttemptReconnectTask
    | StartListeningTask
    | ToggleChatTask
    | StopListeningTask
    | StartAudioStreamsTask
    | StopAudioStreamsTask

  /** Work started on a detached thread or coroutine that later acts on the
      application by itself: the drain-then-transition worker of a tts stop,
      the relisten timer after a wake-word abort, the delayed reconnect, and
      the open-channel-then-listen coroutine of a manual start. */
  datatype Worker =
    | DrainThenTransition
    | RelistenAfterAbort
    | DelayedReconnect
    | OpenChannelThenListen

  /** The result of one write to the playback device. */
  datatype WriteOutcome = Written | StreamNotOpen | OtherWriteError

  /** How one audio stream behaves during a step: whether its `start_stream`
      raises, whether its `stop_stream` raises (a stream whose stop raised is
      still active), and whether reopening it raises. */
  datatype StreamFaults = StreamFaults(startFails: bool, stopFails: bool, reopenFails: bool)

  /** How the audio hardware behaves during one step: the faults of the
      capture stream (`input`) and of the playback stream (`output`), the text
      a failed reopen raises with, and how a write ends. */
  datatype Hardware = Hardware(input: StreamFaults, output: StreamFaults, write: WriteOutcome, errorText: string)

  /** The application object's state. The four logs only grow: `sent` holds
      protocol requests, `display` display calls, `notified` listener calls,
      `played` the PCM buffers written to the playback device. */
  datatype App = App(
    state: DeviceState,
    keepListening: bool,
    aborted: bool,
    currentText: Json,
    currentEmotion: Json,
    hasProtocol: bool,
    channelOpen: bool,
    inputActive: bool,
    outputActive: bool,
    playback: seq<Packet>,
    tasks: seq<Task>,
    workers: seq<Worker>,
    listeners: seq<Listener>,
    sent: seq<Request>,
    display: seq<DisplayCall>,
    notified: seq<ListenerCall>,
    played: seq<Pcm>
  )

  /** The application after construction and audio initialisation: IDLE, both
      streams opened (PyAudio starts an opened stream), empty queues. */
  function Initial(listeners: seq<Listener>, hasProtocol: bool): App
  {
    App(Idle, false, false, JStr(""), JStr("neutral"), hasProtocol, false, true, true,
        [], [], [], listeners, [], [], [], [])
  }

  /** `x` is an initial segment of `y`. */
  predicate Prefix<T(==)>(x: seq<T>, y: seq<T>)
  {
    |x| <= |y| && y[..|x|] == x
  }

  /** `b` keeps every log of `a` as a prefix (requests sent, display calls,
      listener calls and written buffers are never retracted) and keeps the
      listeners and the protocol client. */
  predicate Extends(a: App, b: App)
  {
    && Prefix(a.sent, b.sent) && Prefix(a.display, b.display)
    && Prefix(a.notified, b.notified) && Prefix(a.played, b.played)
    && b.listeners == a.listeners && b.hasProtocol == a.hasProtocol
  }

  lemma ExtendsRefl(a: App)
    ensures Extends(a, a)
  {
    assert a.sent[..|a.sent|] == a.sent && a.display[..|a.display|] == a.display;
    assert a.notified[..|a.notified|] == a.notified && a.played[..|a.played|] == a.played;
  }

  lemma PrefixTrans<T>(x: seq<T>, y: seq<T>, z: seq<T>)
    requires Prefix(x, y) && Prefix(y, z)
    ensures Prefix(x, z)
  {
    assert z[..|x|] == z[..|y|][..|x|];
  }

  /** Extending an extension extends the original. */
  lemma ExtendsTrans(a: App, b: App, c: App)
    requires Extends(a, b) && Extends(b, c)
    ensures Extends(a, c)
  {
    PrefixTrans(a.sent, b.sent, c.sent);
    PrefixTrans(a.display, b.display, c.display);
    PrefixTrans(a.notified, b.notified, c.notified);
    PrefixTrans(a.played, b.played, c.played);
  }
}
