/**
 * The notification records the provider emits and how each is routed to the
 * callbacks given as provider properties (src/context/context.tsx:54-64, 246-327).
 */
module Notifications {
  import opened Wrappers

  /** The `status` of a notice: "success", "info", "warning", "error". */
  datatype Severity = Success | Info | Warning | Failure

  /** The `id` of a notification. */
  datatype NoticeId = IdConnecting | IdReconnecting | IdReconnect | IdConnectSuccess | IdConnectFailure

  datatype Notice = Notice(title: string, description: string, status: Severity, id: Option<NoticeId>)

  /** The callback properties of the provider. */
  datatype Hook = OnStatus | OnConnect | OnConnectFailure | OnDisconnect | OnReconnect | OnReconnecting

  /** The six methods of the provider's `notifier` object. */
  datatype Kind = Connecting | Reconnecting | Reconnected | Connected | ConnectFailed | Disconnected

  /** One call of a user callback with a notice. */
  datatype Delivery = Delivery(hook: Hook, notice: Notice)

  /**
   * The notice each notifier method builds: every one has a title and an id;
   * failures are errors, reconnection attempts warnings, the rest informative.
   */
  function NoticeOf(k: Kind): (n: Notice)
    ensures n.title != "" && n.description != "" && n.id.Some?
    ensures n.status == Failure <==> k == ConnectFailed || k == Disconnected
    ensures n.status == Warning <==> k == Reconnecting
    ensures n.status == Info <==> k in {Connecting, Reconnected, Connected}
  {
    match k
    case Connecting =>
      Notice("Connection attempt", "Attempting to connect to NATS server", Info, Some(IdConnecting))
    case Reconnecting =>
      Notice("Reconnection attempt", "Attempting to reconnect to NATS server", Warning, Some(IdReconnecting))
    case Reconnected =>
      Notice("Successfully reconnected", "Successfully reconnected to NATS server \U{1F389}", Info, Some(IdReconnect))
    case Connected =>
      Notice("Successfully connected", "Connected to NATS cluster \U{1F389}", Info, Some(IdConnectSuccess))
    case ConnectFailed =>
      Notice("Connection Failure", "Failed to connect to NATS cluster \U{1F628}", Failure, Some(IdConnectFailure))
    case Disconnected =>
      Notice("Disconnection", "Lost connection to NATS cluster \U{1F628}", Failure, Some(IdConnectFailure))
  }

  /** The callback each notifier method names as its specific handler. */
  function SpecificHook(k: Kind): (h: Hook)
    ensures h != OnStatus
  {
    match k
    case Connecting => OnConnect
    case Reconnecting => OnReconnecting
    case Reconnected => OnReconnect
    case Connected => OnConnect
    case ConnectFailed => OnConnectFailure
    case Disconnected => OnDisconnect
  }

  /**
   * `_notify`: the specific callback when it is given, else `onStatus` when that
   * is given, else nobody. `hooks` is the set of callbacks the provider received.
   */
  function Route(k: Kind, hooks: set<Hook>): (r: Option<Hook>)
    ensures r == Some(SpecificHook(k)) <==> SpecificHook(k) in hooks
    ensures r == Some(OnStatus) <==> SpecificHook(k) !in hooks && OnStatus in hooks
    ensures r == None <==> SpecificHook(k) !in hooks && OnStatus !in hooks
    ensures r.Some? ==> r.value in hooks
  {
    if SpecificHook(k) in hooks then Some(SpecificHook(k))
    else if OnStatus in hooks then Some(OnStatus)
    else None
  }

  /** Every notice the provider emits carries an id; losing the connection reuses the failure id. */
  lemma NoticeIds(k: Kind)
    ensures NoticeOf(k).id.Some?
    ensures NoticeOf(k).id == Some(IdConnectFailure) <==> k == ConnectFailed || k == Disconnected
  {
  }
}
