/**
 * `NatsProvider` (src/context/context.tsx:214-596) as an object whose fields
 * are the provider's state variables. Each method applies the source's setter
 * calls in order and is proved to perform the corresponding transition of
 * the Lifecycle module; `effects` logs, oldest first, the callbacks invoked
 * and the transport calls made.
 */
module Provider {
  import opened Wrappers
  import opened JsValues
  import opened Notifications
  import opened Lifecycle
  import opened Subscriptions

  class NatsProvider {
    /** The notification callbacks among the provider's properties. */
    const hooks: set<Hook>
    /** The `connect_auto` property. */
    const connectAuto: Option<bool>

    var isMock: bool
    var nc: Handle
    var closed: bool
    var connecting: bool
    var reconnecting: bool
    var connected: bool
    var connectionOptions: Options
    var effects: seq<Effect>

    function State(): Conn
      reads this
    {
      Conn(isMock, nc, closed, connecting, reconnecting, connected, connectionOptions)
    }

    /** The first render: the state variables take their initial values. */
    constructor (props: Options)
      ensures hooks == SplitProps(props).hooks && connectAuto == SplitProps(props).connectAuto
      ensures State() == Initial(SplitProps(props).options) && effects == []
    {
      var split := SplitProps(props);
      hooks := split.hooks;
      connectAuto := split.connectAuto;
      isMock := true;
      nc := Placeholder;
      closed := true;
      connecting := false;
      reconnecting := false;
      connected := false;
      connectionOptions := split.options;
      effects := [];
    }

    /** One `notifier` call, routed through `_notify`. */
    method Emit(k: Kind)
      modifies this`effects
      ensures effects == old(effects) + Lifecycle.Notify(k, hooks)
    {
      effects := effects + Lifecycle.Notify(k, hooks);
    }

    /** `open` up to the pending `connect`. */
    method BeginOpen()
      modifies this
      ensures State() == Lifecycle.BeginOpen(old(State()), hooks).state
      ensures effects == old(effects) + Lifecycle.BeginOpen(old(State()), hooks).effects
    {
      if isMock {
        Emit(Kind.Connecting);
      } else {
        Emit(Kind.Reconnecting);
        // the previous connection's close is awaited and any error it raises is swallowed
        effects := effects + [CloseRequested(nc)];
      }
      connected := false;
      connecting := true;
      effects := effects + [ConnectRequested];
    }

    /** `open` once `connect` has settled with `outcome`. */
    method FinishOpen(outcome: ConnectOutcome)
      modifies this
      ensures State() == Lifecycle.FinishOpen(old(State()), outcome, hooks).state
      ensures effects == old(effects) + Lifecycle.FinishOpen(old(State()), outcome, hooks).effects
    {
      match outcome
      case Rejected =>
        Emit(ConnectFailed);
        connecting := false;
      case Established(h) =>
        nc := Live(h);
        closed := false;
        isMock := false;
        connected := true;
        connecting := false;
        Emit(Kind.Connected);
    }

    /** `open`, which the context also exposes as `connect` and `reconnect`. */
    method Open(outcome: ConnectOutcome)
      modifies this
      ensures State() == Lifecycle.Open(old(State()), outcome, hooks).state
      ensures effects == old(effects) + Lifecycle.Open(old(State()), outcome, hooks).effects
    {
      BeginOpen();
      FinishOpen(outcome);
    }

    /** `close`. */
    method Close()
      modifies this
      ensures State() == Lifecycle.Close(old(State())).state
      ensures effects == old(effects) + Lifecycle.Close(old(State())).effects
    {
      if closed {
        return;
      }
      if !isMock {
        effects := effects + [CloseRequested(nc)];
        nc := Placeholder;
      }
      closed := true;
      connected := false;
    }

    /** `update(options)`: merge, then `open`. */
    method Update(opts: Option<Options>, outcome: ConnectOutcome)
      modifies this
      ensures State() == Lifecycle.Update(old(State()), opts, outcome, hooks).state
      ensures effects == old(effects) + Lifecycle.Update(old(State()), opts, outcome, hooks).effects
    {
      connectionOptions := Spread(Some(connectionOptions), opts);
      Open(outcome);
    }

    /** The monitor's handling of one status event. */
    method OnStatusEvent(ev: string)
      modifies this
      ensures State() == StatusStep(old(State()), ev, hooks).state
      ensures effects == old(effects) + StatusStep(old(State()), ev, hooks).effects
    {
      if ev == DISCONNECT {
        connected := false;
        Emit(Disconnected);
      } else if ev == RECONNECT {
        reconnecting := false;
        connected := true;
        Emit(Reconnected);
      } else if ev == RECONNECTING {
        reconnecting := true;
        Emit(Kind.Reconnecting);
      }
    }

    /** The status monitor, consuming the events of `nc.status()` until the stream ends. */
    method Monitor(events: seq<string>)
      modifies this
      ensures State() == Lifecycle.Monitor(old(State()), events, hooks).state
      ensures effects == old(effects) + Lifecycle.Monitor(old(State()), events, hooks).effects
    {
      if closed {
        return;
      }
      var i := 0;
      while i < |events|
        invariant 0 <= i <= |events|
        invariant State() == ApplyEvents(old(State()), events[..i], hooks).state
        invariant effects == old(effects) + ApplyEvents(old(State()), events[..i], hooks).effects
      {
        ApplyEventsSnoc(old(State()), events[..i], events[i], hooks);
        assert events[..i + 1] == events[..i] + [events[i]];
        OnStatusEvent(events[i]);
        i := i + 1;
      }
      assert events[..|events|] == events;
    }

    /** The auto-connect effect, run once after the first render. */
    method Mount(outcome: ConnectOutcome)
      modifies this
      ensures State() == Lifecycle.Mount(old(State()), connectAuto, outcome, hooks).state
      ensures effects == old(effects) + Lifecycle.Mount(old(State()), connectAuto, outcome, hooks).effects
    {
      if AutoConnects(connectAuto) {
        Open(outcome);
      }
    }

    /** The auto-connect effect's cleanup, as intended: `close` when the provider auto-connected. */
    method Unmount()
      modifies this
      ensures State() == IntendedUnmount(old(State()), connectAuto).state
      ensures effects == old(effects) + IntendedUnmount(old(State()), connectAuto).effects
    {
      if AutoConnects(connectAuto) {
        Close();
      }
    }

    /**
     * `subscribe(subject)`: a fresh handle from the current connection (the
     * placeholder's handles have no `unsubscribe`) with its `unsubscribe`
     * guarded. The provider's state is untouched.
     */
    method Subscribe(subject: string) returns (sub: Subscription)
      modifies {}
      ensures fresh(sub) && sub.subject == subject && sub.nativeCalls == []
      ensures sub.unsubscribe == Guard(if nc.Live? then Native else Missing)
    {
      sub := new Subscription(subject, if nc.Live? then Native else Missing);
      sub.InstallGuard();
    }
  }

  /**
   * The repository's first test: a provider given only connection options
   * auto-connects, and against a reachable broker ends connected, not
   * connecting, not reconnecting and open (`Lifecycle.AutoConnectSucceeds`
   * covers the state while `connect` is pending).
   */
  method AutoConnectTrace(handle: nat) returns (p: NatsProvider)
    ensures p.connectionOptions == map["servers" := Obj(0), "tls" := Bool(false)]
    ensures p.connected && !p.connecting && !p.reconnecting && !p.closed
  {
    var props := map["servers" := Obj(0), "tls" := Bool(false)];
    SplitPlainProps(props);
    p := new NatsProvider(props);
    p.Mount(Established(handle));
  }

  /** The repository's second test: `connect_auto` false leaves the initial flags. */
  method NoAutoConnectTrace(outcome: ConnectOutcome) returns (p: NatsProvider)
    ensures p.connectionOptions == map["servers" := Obj(0), "tls" := Bool(false)]
    ensures p.closed && !p.connecting && !p.reconnecting && !p.connected
  {
    var props := map[CONNECT_AUTO := Bool(false), "servers" := Obj(0), "tls" := Bool(false)];
    p := new NatsProvider(props);
    assert p.connectionOptions == map["servers" := Obj(0), "tls" := Bool(false)];
    p.Mount(outcome);
  }
}
