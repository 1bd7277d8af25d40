/**
 * The connection lifecycle of `NatsProvider` (src/context/context.tsx:214-596),
 * as pure transitions over the provider's state record. Each transition
 * returns the new state together with what it did outside that state, in
 * order: the callbacks it invoked and the calls it made on the transport.
 * The class in provider.dfy performs the same transitions setter by setter.
 */
module Lifecycle {
  import opened Wrappers
  import opened JsValues
  import opened Notifications

  /** The provider's `nc`: the placeholder connection, or a live one the transport returned. */
  datatype Handle = Placeholder | Live(id: nat)

  /** How the transport's `connect(...)` settles: with a new connection, or by rejecting. */
  datatype ConnectOutcome = Established(handle: nat) | Rejected

  /** Status event types the monitor distinguishes (the values of nats.ws `Events.Disconnect`, `Events.Reconnect` and of the debug event "reconnecting"). */
  const DISCONNECT := "disconnect"
  const RECONNECT := "reconnect"
  const RECONNECTING := "reconnecting"

  predicate Tracked(ev: string) {
    ev == DISCONNECT || ev == RECONNECT || ev == RECONNECTING
  }

  /** What a transition does besides changing the state. */
  datatype Effect =
    | Notified(delivery: Delivery)   // a user callback was invoked
    | CloseRequested(handle: Handle) // `nc.close()` on that connection
    | ConnectRequested               // `connect(connectionOptions)` on the transport

  /** The provider's state variables. */
  datatype Conn = Conn(
    isMock: bool,
    nc: Handle,
    closed: bool,
    connecting: bool,
    reconnecting: bool,
    connected: bool,
    options: Options)

  datatype Step = Step(state: Conn, effects: seq<Effect>)

  /** The state of a freshly rendered provider; `options` are its remaining properties. */
  function Initial(options: Options): (s: Conn)
    ensures s.isMock && s.closed && s.nc == Placeholder
    ensures !s.connecting && !s.reconnecting && !s.connected
    ensures s.options == options
  {
    Conn(true, Placeholder, true, false, false, false, options)
  }

  /**
   * One notifier call through `_notify`: one invocation of the routed callback
   * with the kind's notice, or nothing when no callback applies.
   */
  function Notify(k: Kind, hooks: set<Hook>): (es: seq<Effect>)
    ensures |es| <= 1
    ensures es == [] <==> Route(k, hooks) == None
    ensures forall i :: 0 <= i < |es| ==> es[i] == Notified(Delivery(Route(k, hooks).value, NoticeOf(k)))
  {
    match Route(k, hooks)
    case Some(h) => [Notified(Delivery(h, NoticeOf(k)))]
    case None => []
  }

  /** The auto-connect effect opens only when `connect_auto` is true or not given. */
  function AutoConnects(connectAuto: Option<bool>): (b: bool)
    ensures b <==> connectAuto != Some(false)
  {
    match connectAuto
    case None => true
    case Some(v) => v
  }

  /** The provider's properties once destructured: the callbacks, `connect_auto` and the rest. */
  datatype Props = Props(hooks: set<Hook>, connectAuto: Option<bool>, options: Options)

  const CHILDREN := "children"
  const CONNECT_AUTO := "connect_auto"

  /** The property that carries each callback. */
  function HookKey(h: Hook): string {
    match h
    case OnStatus => "onStatus"
    case OnConnect => "onConnect"
    case OnConnectFailure => "onConnectFailure"
    case OnDisconnect => "onDisconnect"
    case OnReconnect => "onReconnect"
    case OnReconnecting => "onReconnecting"
  }

  /** The eight properties the provider extracts; all others are connection options. */
  const PROP_KEYS: set<string> := {CHILDREN, CONNECT_AUTO, "onStatus", "onConnect",
    "onConnectFailure", "onDisconnect", "onReconnect", "onReconnecting"}

  const ALL_HOOKS: set<Hook> := {OnStatus, OnConnect, OnConnectFailure, OnDisconnect, OnReconnect, OnReconnecting}

  /**
   * `{children, onStatus, ..., connect_auto, ..._options} = props`. A callback is
   * given when its property is truthy. `connect_auto` is not given when it reads
   * `undefined`; otherwise only its truthiness matters to the auto-connect test.
   */
  function SplitProps(props: Options): (r: Props)
    ensures forall h: Hook :: h in r.hooks <==> Truthy(Read(props, HookKey(h)))
    ensures r.connectAuto.None? <==> Read(props, CONNECT_AUTO) == Undefined
    ensures AutoConnects(r.connectAuto) <==> Truthy(Read(props, CONNECT_AUTO)) || Read(props, CONNECT_AUTO) == Undefined
    ensures r.options.Keys == props.Keys - PROP_KEYS
    ensures forall k :: k in r.options ==> r.options[k] == props[k]
  {
    var auto := Read(props, CONNECT_AUTO);
    Props(set h | h in ALL_HOOKS && Truthy(Read(props, HookKey(h))),
          if auto == Undefined then None else Some(Truthy(auto)),
          map k | k in props && k !in PROP_KEYS :: props[k])
  }

  /** Properties that name none of the eight keys are all connection options, and the provider auto-connects. */
  lemma SplitPlainProps(props: Options)
    requires props.Keys !! PROP_KEYS
    ensures SplitProps(props) == Props({}, None, props)
  {
    var r := SplitProps(props);
    forall h: Hook ensures h !in r.hooks {
      assert HookKey(h) in PROP_KEYS;
    }
    assert r.options == props;
  }

  /**
   * `open`, up to the `await` on the transport's `connect`: announce the
   * attempt, dispose of the previous connection when there was one, then mark
   * the provider as connecting and not connected.
   */
  function BeginOpen(s: Conn, hooks: set<Hook>): (r: Step)
    ensures r.state.connecting && !r.state.connected
    ensures r.state.(connecting := s.connecting, connected := s.connected) == s
    ensures s.isMock ==> r.effects == Notify(Connecting, hooks) + [ConnectRequested]
    ensures !s.isMock ==> r.effects == Notify(Reconnecting, hooks) + [CloseRequested(s.nc), ConnectRequested]
  {
    var before := if s.isMock then Notify(Connecting, hooks)
                  else Notify(Reconnecting, hooks) + [CloseRequested(s.nc)];
    Step(s.(connected := false, connecting := true), before + [ConnectRequested])
  }

  /**
   * `open`, after `connect` settles. A rejection only clears `connecting`; a
   * new connection replaces `nc` and marks the provider open and connected.
   */
  function FinishOpen(s: Conn, outcome: ConnectOutcome, hooks: set<Hook>): (r: Step)
    ensures !r.state.connecting
    ensures outcome.Rejected? ==>
              r.state == s.(connecting := false) && r.effects == Notify(ConnectFailed, hooks)
    ensures outcome.Established? ==>
              && r.state == s.(nc := Live(outcome.handle), closed := false, isMock := false,
                               connected := true, connecting := false)
              && r.effects == Notify(Connected, hooks)
  {
    match outcome
    case Rejected =>
      Step(s.(connecting := false), Notify(ConnectFailed, hooks))
    case Established(h) =>
      Step(s.(nc := Live(h), closed := false, isMock := false, connected := true, connecting := false),
           Notify(Connected, hooks))
  }

  /** `open` (also exposed as `connect` and `reconnect`), from start to end. */
  function Open(s: Conn, outcome: ConnectOutcome, hooks: set<Hook>): (r: Step)
    ensures !(r.state.connected && r.state.connecting) && !r.state.connecting
    ensures r.state.options == s.options && r.state.reconnecting == s.reconnecting
    ensures outcome.Rejected? ==>
              && r.state.nc == s.nc && r.state.closed == s.closed && r.state.isMock == s.isMock
              && !r.state.connected
    ensures outcome.Established? ==>
              && r.state.nc == Live(outcome.handle) && !r.state.closed && !r.state.isMock
              && r.state.connected
    ensures CloseRequested(s.nc) in r.effects <==> !s.isMock
    ensures ConnectRequested in r.effects
    ensures r.effects == BeginOpen(s, hooks).effects + Notify(if outcome.Rejected? then ConnectFailed else Connected, hooks)
  {
    var b := BeginOpen(s, hooks);
    var f := FinishOpen(b.state, outcome, hooks);
    Step(f.state, b.effects + f.effects)
  }

  /**
   * `close`: nothing at all when already closed; otherwise the live connection
   * (if any) is closed and replaced by the placeholder, and the provider is
   * marked closed and not connected.
   */
  function Close(s: Conn): (r: Step)
    ensures s.closed ==> r == Step(s, [])
    ensures r.state.closed && (!s.closed ==> !r.state.connected)
    ensures r.state.isMock == s.isMock && r.state.connecting == s.connecting
    ensures r.state.reconnecting == s.reconnecting && r.state.options == s.options
    ensures r.effects != [] <==> !s.closed && !s.isMock
    ensures !s.closed && !s.isMock ==> r.state.nc == Placeholder && r.effects == [CloseRequested(s.nc)]
    ensures s.closed || s.isMock ==> r.state.nc == s.nc
  {
    if s.closed then Step(s, [])
    else if !s.isMock then Step(s.(nc := Placeholder, closed := true, connected := false), [CloseRequested(s.nc)])
    else Step(s.(closed := true, connected := false), [])
  }

  /**
   * `update(options)`: store the right-biased merge of the current options
   * with the update, then `open`. Apart from the stored options the result
   * is exactly that of `open` on the old state.
   */
  function Update(s: Conn, opts: Option<Options>, outcome: ConnectOutcome, hooks: set<Hook>): (r: Step)
    ensures r.state.options.Keys == s.options.Keys + Own(opts).Keys
    ensures forall k :: k in Own(opts) ==> r.state.options[k] == Own(opts)[k]
    ensures forall k :: k in s.options && k !in Own(opts) ==> r.state.options[k] == s.options[k]
    ensures opts.None? ==> r.state.options == s.options
    ensures r.state == Open(s, outcome, hooks).state.(options := r.state.options)
    ensures r.effects == Open(s, outcome, hooks).effects
  {
    Open(s.(options := Spread(Some(s.options), opts)), outcome, hooks)
  }

  /** One status event seen by the monitor. Only `connected` and `reconnecting` can change. */
  function StatusStep(s: Conn, ev: string, hooks: set<Hook>): (r: Step)
    ensures r.state.(connected := s.connected, reconnecting := s.reconnecting) == s
    ensures ev == DISCONNECT ==>
              !r.state.connected && r.state.reconnecting == s.reconnecting && r.effects == Notify(Disconnected, hooks)
    ensures ev == RECONNECT ==>
              r.state.connected && !r.state.reconnecting && r.effects == Notify(Reconnected, hooks)
    ensures ev == RECONNECTING ==>
              r.state.connected == s.connected && r.state.reconnecting && r.effects == Notify(Reconnecting, hooks)
    ensures !Tracked(ev) ==> r == Step(s, [])
  {
    if ev == DISCONNECT then
      Step(s.(connected := false), Notify(Disconnected, hooks))
    else if ev == RECONNECT then
      Step(s.(reconnecting := false, connected := true), Notify(Reconnected, hooks))
    else if ev == RECONNECTING then
      Step(s.(reconnecting := true), Notify(Reconnecting, hooks))
    else
      Step(s, [])
  }

  /** A run of status events, first to last. */
  function ApplyEvents(s: Conn, evs: seq<string>, hooks: set<Hook>): (r: Step)
    ensures r.state.(connected := s.connected, reconnecting := s.reconnecting) == s
    ensures |r.effects| <= |evs|
    ensures (forall i :: 0 <= i < |evs| ==> !Tracked(evs[i])) ==> r == Step(s, [])
    decreases |evs|
  {
    if evs == [] then Step(s, [])
    else
      var a := StatusStep(s, evs[0], hooks);
      var b := ApplyEvents(a.state, evs[1..], hooks);
      Step(b.state, a.effects + b.effects)
  }

  /** Handling one more event after a run is the run extended by that event. */
  lemma {:induction false} ApplyEventsSnoc(s: Conn, evs: seq<string>, ev: string, hooks: set<Hook>)
    ensures ApplyEvents(s, evs + [ev], hooks)
            == Step(StatusStep(ApplyEvents(s, evs, hooks).state, ev, hooks).state,
                    ApplyEvents(s, evs, hooks).effects + StatusStep(ApplyEvents(s, evs, hooks).state, ev, hooks).effects)
    decreases |evs|
  {
    if evs == [] {
      assert evs + [ev] == [ev];
    } else {
      var a := StatusStep(s, evs[0], hooks);
      assert (evs + [ev])[0] == evs[0];
      assert (evs + [ev])[1..] == evs[1..] + [ev];
      ApplyEventsSnoc(a.state, evs[1..], ev, hooks);
    }
  }

  /**
   * The status monitor over the events its connection's status stream yields:
   * nothing when the provider is closed when the monitor starts.
   */
  function Monitor(s: Conn, evs: seq<string>, hooks: set<Hook>): (r: Step)
    ensures s.closed ==> r == Step(s, [])
    ensures r.state.(connected := s.connected, reconnecting := s.reconnecting) == s
  {
    if s.closed then Step(s, []) else ApplyEvents(s, evs, hooks)
  }

  /** The auto-connect effect after the first render: `open` unless `connect_auto` is false. */
  function Mount(s: Conn, connectAuto: Option<bool>, outcome: ConnectOutcome, hooks: set<Hook>): (r: Step)
    ensures connectAuto == Some(false) ==> r == Step(s, [])
    ensures connectAuto != Some(false) ==> ConnectRequested in r.effects
  {
    if AutoConnects(connectAuto) then Open(s, outcome, hooks) else Step(s, [])
  }

  /**
   * The auto-connect effect's cleanup as written. The effect runs once, so its
   * cleanup is the `close` of the first render, which still reads that
   * render's `closed` (true) and returns at once: the cleanup never closes
   * anything and changes nothing, whatever happened since.
   */
  function Unmount(s: Conn, connectAuto: Option<bool>): (r: Step)
    ensures r == Step(s, [])
  {
    if AutoConnects(connectAuto) then
      // the first render's values; its options play no part in `close`
      var stale := Close(Initial(s.options));
      Step(s, stale.effects)
    else Step(s, [])
  }

  /**
   * As written, an auto-connected provider that is unmounted keeps its live
   * connection open: no close is requested and the state still says connected.
   */
  lemma UnmountLeaksConnection(options: Options, handle: nat, hooks: set<Hook>)
    ensures var m := Mount(Initial(options), None, Established(handle), hooks).state;
            var u := Unmount(m, None);
            && u.state.nc == Live(handle) && !u.state.closed && u.state.connected
            && CloseRequested(Live(handle)) !in u.effects
  {
  }

  /** The cleanup as evidently intended: the current `close` when the provider auto-connected. */
  function IntendedUnmount(s: Conn, connectAuto: Option<bool>): (r: Step)
    ensures !AutoConnects(connectAuto) ==> r == Step(s, [])
    ensures AutoConnects(connectAuto) ==> r == Close(s)
    ensures AutoConnects(connectAuto) ==> r.state.closed && (!s.closed ==> !r.state.connected)
  {
    if AutoConnects(connectAuto) then Close(s) else Step(s, [])
  }

  /**
   * The intended cleanup releases the connection: from any settled state of an
   * auto-connected provider it ends closed, disconnected and on the
   * placeholder, and a live connection is closed on the transport.
   */
  lemma IntendedUnmountReleases(s: Conn, connectAuto: Option<bool>)
    requires Settled(s) && AutoConnects(connectAuto)
    ensures var r := IntendedUnmount(s, connectAuto);
            && r.state.closed && !r.state.connected && r.state.nc == Placeholder
            && Settled(r.state)
            && (s.nc.Live? ==> r.effects == [CloseRequested(s.nc)])
  {
  }

  /** The operations that change the provider's state once it is mounted. */
  datatype Op =
    | ConnectOp(outcome: ConnectOutcome)           // `connect` and `reconnect`
    | CloseOp
    | UpdateOp(opts: Option<Options>, outcome: ConnectOutcome)
    | StatusOp(events: seq<string>)                // one run of the status monitor

  function Apply(s: Conn, op: Op, hooks: set<Hook>): Step {
    match op
    case ConnectOp(outcome) => Open(s, outcome, hooks)
    case CloseOp => Close(s)
    case UpdateOp(opts, outcome) => Update(s, opts, outcome, hooks)
    case StatusOp(events) => Monitor(s, events, hooks)
  }

  function Run(s: Conn, ops: seq<Op>, hooks: set<Hook>): Step
    decreases |ops|
  {
    if ops == [] then Step(s, [])
    else
      var a := Apply(s, ops[0], hooks);
      var b := Run(a.state, ops[1..], hooks);
      Step(b.state, a.effects + b.effects)
  }

  /**
   * The state relations every complete operation keeps: no attempt is left in
   * flight, a closed provider is not connected, the placeholder is in use
   * exactly while closed, and a provider that never connected is closed.
   */
  ghost predicate Settled(s: Conn) {
    && !s.connecting
    && (s.closed ==> !s.connected)
    && (s.closed <==> s.nc == Placeholder)
    && (s.isMock ==> s.closed)
  }

  lemma InitialSettled(options: Options)
    ensures Settled(Initial(options))
  {
  }

  lemma ApplyKeepsSettled(s: Conn, op: Op, hooks: set<Hook>)
    requires Settled(s)
    ensures Settled(Apply(s, op, hooks).state)
  {
  }

  /**
   * Over every sequence of connects, closes, updates and status runs, the
   * provider is never connected and connecting at once, and never connected
   * while closed.
   */
  lemma {:induction false} RunKeepsSettled(s: Conn, ops: seq<Op>, hooks: set<Hook>)
    requires Settled(s)
    ensures Settled(Run(s, ops, hooks).state)
    ensures !(Run(s, ops, hooks).state.connected && Run(s, ops, hooks).state.connecting)
    ensures Run(s, ops, hooks).state.closed ==> !Run(s, ops, hooks).state.connected
    decreases |ops|
  {
    if ops != [] {
      ApplyKeepsSettled(s, ops[0], hooks);
      RunKeepsSettled(Apply(s, ops[0], hooks).state, ops[1..], hooks);
    }
  }

  /** The same from a fresh provider, whatever the auto-connect effect did. */
  lemma {:induction false} ProviderKeepsSettled(options: Options, connectAuto: Option<bool>,
                                                outcome: ConnectOutcome, ops: seq<Op>, hooks: set<Hook>)
    ensures Settled(Run(Mount(Initial(options), connectAuto, outcome, hooks).state, ops, hooks).state)
  {
    InitialSettled(options);
    ApplyKeepsSettled(Initial(options), ConnectOp(outcome), hooks);
    RunKeepsSettled(Mount(Initial(options), connectAuto, outcome, hooks).state, ops, hooks);
  }

  /** Two closes in a row are one close. */
  lemma CloseTwice(s: Conn)
    ensures Close(Close(s).state) == Step(Close(s).state, [])
  {
  }

  /**
   * A provider mounted with `connect_auto` false keeps its initial flags:
   * closed, not connecting, not reconnecting, not connected.
   */
  lemma NoAutoConnect(options: Options, outcome: ConnectOutcome, hooks: set<Hook>)
    ensures var s := Mount(Initial(options), Some(false), outcome, hooks).state;
            s.closed && !s.connecting && !s.reconnecting && !s.connected
  {
  }

  /**
   * A provider mounted without `connect_auto` against a reachable broker is
   * connecting while `connect` is pending, and afterwards connected, not
   * connecting, not reconnecting, with one connect-success notice at the end.
   */
  lemma AutoConnectSucceeds(options: Options, handle: nat, hooks: set<Hook>)
    ensures BeginOpen(Initial(options), hooks).state.connecting
    ensures var r := Mount(Initial(options), None, Established(handle), hooks);
            && r.state.connected && !r.state.connecting && !r.state.reconnecting && !r.state.closed
            && r.effects == Notify(Connecting, hooks) + [ConnectRequested] + Notify(Connected, hooks)
  {
  }

  /**
   * The transport reporting "reconnecting" then "reconnect" on a live
   * connection: `reconnecting` goes up then down, the provider ends connected,
   * and the two notices come in that order.
   */
  lemma ReconnectRoundTrip(s: Conn, hooks: set<Hook>)
    requires !s.closed
    ensures StatusStep(s, RECONNECTING, hooks).state.reconnecting
    ensures var r := Monitor(s, [RECONNECTING, RECONNECT], hooks);
            && !r.state.reconnecting && r.state.connected
            && r.effects == Notify(Reconnecting, hooks) + Notify(Reconnected, hooks)
  {
    var a := StatusStep(s, RECONNECTING, hooks);
    var b := StatusStep(a.state, RECONNECT, hooks);
    assert [RECONNECTING, RECONNECT][1..] == [RECONNECT];
    assert [RECONNECT][1..] == [];
    assert ApplyEvents(a.state, [RECONNECT], hooks) == Step(b.state, b.effects + []);
  }

  /**
   * `connected` does not exclude `reconnecting`: a "reconnecting" event on a
   * connected provider leaves it connected while reconnecting.
   */
  lemma ReconnectingWhileConnected(options: Options, handle: nat, hooks: set<Hook>)
    ensures var s := Open(Initial(options), Established(handle), hooks).state;
            var r := Monitor(s, [RECONNECTING], hooks).state;
            Settled(r) && r.connected && r.reconnecting
  {
    var s := Open(Initial(options), Established(handle), hooks).state;
    assert [RECONNECTING][1..] == [];
  }

  /**
   * `connecting` and `reconnecting` can hold together: a `reconnect` called
   * while the transport reports "reconnecting" sets `connecting` and leaves
   * `reconnecting` up.
   */
  lemma ReconnectWhileReconnecting(options: Options, handle: nat, hooks: set<Hook>)
    ensures var s := Open(Initial(options), Established(handle), hooks).state;
            var r := BeginOpen(Monitor(s, [RECONNECTING], hooks).state, hooks).state;
            r.connecting && r.reconnecting
  {
    ReconnectingWhileConnected(options, handle, hooks);
  }
}
