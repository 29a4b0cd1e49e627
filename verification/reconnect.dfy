/** Connection supervision in src/application.py: `_on_network_error`,
    `_attempt_reconnect` and the bounded retry loop of `_reconnect`. */
module Reconnect {
  import opened AppTypes
  import opened StateMachine
  import Messages

  /** `max_retries`: connect attempts one reconnect makes at most. */
  const MaxRetries: nat := 3

  const NetworkErrorTitle: string := "网络错误"
  const ConnectErrorTitle: string := "连接错误"
  const ReconnectFailed: string := "无法重新连接到服务器"

  /** `_on_network_error(message)`: schedule an alert and then a reconnect attempt. */
  function OnNetworkError(app: App, message: string): (r: App)
    ensures Messages.OnlySchedules(app, r)
    ensures r.tasks == app.tasks + [AlertTask(NetworkErrorTitle, message), AttemptReconnectTask]
  {
    Messages.Enqueue(Messages.Enqueue(app, AlertTask(NetworkErrorTitle, message)), AttemptReconnectTask)
  }

  /** `_attempt_reconnect`: unless already CONNECTING, enter CONNECTING,
      request the stale channel closed (when a protocol client exists) and
      start the delayed reconnect worker. */
  function AttemptReconnect(app: App, hw: Hardware): (r: App)
    ensures Extends(app, r)
    ensures r.tasks == app.tasks && r.hasProtocol == app.hasProtocol
    ensures app.state == Connecting ==> r == app
    ensures app.state != Connecting ==>
              r.state == Connecting && r.workers == app.workers + [DelayedReconnect]
              && r.sent == app.sent + (if app.hasProtocol then [CloseAudioChannel] else [])
              && r.playback == app.playback && r.tasks == app.tasks
  {
    if app.state == Connecting then app
    else
      var a := SetDeviceState(app, Connecting, hw);
      var b := if a.hasProtocol then a.(sent := a.sent + [CloseAudioChannel]) else a;
      b.(workers := b.workers + [DelayedReconnect])
  }

  /** What `protocol.connect()` answers on attempt `i`: the supplied answer,
      or a failure when none was supplied. */
  predicate Answer(results: seq<bool>, i: nat)
  {
    i < |results| && results[i]
  }

  /** The `while retry_count < max_retries` loop from attempt `retry` on:
      whether some attempt connected, and how many attempts were made in all. */
  function ConnectLoop(results: seq<bool>, retry: nat): (r: (bool, nat))
    requires retry <= MaxRetries
    ensures retry <= r.1 <= MaxRetries
    ensures r.0 <==> exists i :: retry <= i < MaxRetries && Answer(results, i)
    ensures r.0 ==> r.1 > retry && Answer(results, r.1 - 1)
                    && forall i :: retry <= i < r.1 - 1 ==> !Answer(results, i)
    ensures !r.0 ==> r.1 == MaxRetries
    decreases MaxRetries - retry
  {
    if retry == MaxRetries then (false, retry)
    else if Answer(results, retry) then (true, retry + 1)
    else ConnectLoop(results, retry + 1)
  }

  /** The end of `_reconnect`: the application afterwards, whether it connected, and the attempts made. */
  datatype Reconnected = Reconnected(app: App, connected: bool, attempts: nat)

  /** `_reconnect`. The first successful attempt ends the loop in IDLE; after
      `MaxRetries` failures one alert is scheduled and the device is left IDLE.
      Without a protocol client the coroutine raises before any attempt. */
  function Reconnect(app: App, results: seq<bool>, hw: Hardware): (r: Reconnected)
    ensures Extends(app, r.app) && r.app.sent == app.sent
    ensures !app.hasProtocol ==> r == Reconnected(app, false, 0)
    ensures app.hasProtocol ==> r.app.state == Idle && 1 <= r.attempts <= MaxRetries
    ensures app.hasProtocol ==> (r.connected <==> exists i :: 0 <= i < MaxRetries && Answer(results, i))
    // the first success stops the retries
    ensures app.hasProtocol && r.connected ==>
              Answer(results, r.attempts - 1) && (forall i :: 0 <= i < r.attempts - 1 ==> !Answer(results, i))
              && r.app.tasks == app.tasks
    // exhausting the retries schedules exactly one alert
    ensures app.hasProtocol && !r.connected ==>
              r.attempts == MaxRetries
              && r.app.tasks == app.tasks + [AlertTask(ConnectErrorTitle, ReconnectFailed)]
  {
    if !app.hasProtocol then Reconnected(app, false, 0)
    else
      var (connected, attempts) := ConnectLoop(results, 0);
      if connected then Reconnected(SetDeviceState(app, Idle, hw), true, attempts)
      else
        var a := Messages.Enqueue(app, AlertTask(ConnectErrorTitle, ReconnectFailed));
        Reconnected(SetDeviceState(a, Idle, hw), false, attempts)
  }
}
