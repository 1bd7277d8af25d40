# react-nats-context, modelled in Dafny

A model of the core of react-nats-context. This is a React binding that owns one NATS
connection for a component tree. The model has three parts:

- **`NatsProvider`**: its state variables (`isMock`, `nc`, `closed`, `connecting`,
  `reconnecting`, `connected`, `connectionOptions`) and the paths that change them
  (`open` — also exposed as `connect` and `reconnect` — `close`, `update`, the
  auto-connect effect and the status monitor). It also covers how notices are routed to
  the user's callbacks, the `unsubscribe` guard that `subscribe` installs, and the
  default context that throws on every call.
- **`useRequest`**: its request state (`options`, `data`, `loading`, `result`, `error`,
  `lock`) and its transitions.
- **`NatsContextError`**: how its fields default.

The provider's transitions are pure functions in `Lifecycle`. Each returns the new state
and its effects in order: callbacks invoked, `nc.close()` calls, `connect(...)` calls.
The class `Provider.NatsProvider` applies the source's setter calls one by one. Each of
its methods is proved to perform the matching transition. `Lifecycle.RunKeepsSettled`
proves the state relations that hold after every sequence of connects, closes, updates
and status runs. `Lifecycle.Op` names these four operations, `Lifecycle.Apply` performs
one of them and `Lifecycle.Run` performs a sequence of them in order, concatenating
their effects.

The transport (nats.ws) is replaced by inputs:

- a connect outcome: `Established(handle)` or `Rejected`;
- the status stream: the sequence of event type strings it yields;
- the outcome of the transport's own `unsubscribe`;
- the reply of a request: `Replied(msg)` or `Failed(err)`.

Option bags are maps from property names to values. Spread and rest patterns are
modelled exactly, including a key whose value is `undefined` winning a merge.

The model follows the code in two places where one might expect otherwise:

- `connected` does not exclude `reconnecting`. A "reconnecting" status event on a
  connected provider leaves it connected and reconnecting
  (`Lifecycle.ReconnectingWhileConnected`). Neither `open` nor `close` resets
  `reconnecting`, so a `reconnect` in that state is connecting and reconnecting at
  once (`Lifecycle.ReconnectWhileReconnecting`).
- Cancelling a subscription can still throw. The guard swallows only `TypeError`s and
  re-throws every other error (`Subscriptions.Invoke`).

## Model

| member | source | states |
|---|---|---|
| `JsValues.Spread` | src/context/context.tsx:588 | `{...base, ...over}`: the keys are the union; a key of `over` takes its value from `over`; every other key keeps `base`'s value; an undefined side adds nothing |
| `JsValues.Omit` | src/hooks/request.tsx:30 | the rest of `{key, ...rest} = o`: exactly `o`'s keys minus `key`, with `o`'s values |
| `JsValues.SpreadNothing` | src/context/context.tsx:588 | merging an absent or empty update leaves the options equal |
| `JsValues.SpreadExample` | src/context/context.tsx:588 | `{a:1,b:2}` updated with `{b:3}` gives `{a:1,b:3}` |
| `JsValues.SpreadIdempotent` | src/context/context.tsx:588 | applying the same update twice equals applying it once |
| `Errors.OrDefault` | src/errors.ts:15-17 | `v \|\| default`: the supplied string when present and non-empty, else the default |
| `Errors.NewContextError` | src/errors.ts:8-18 | the message is kept; name, code and description take the supplied value unless it is absent or empty, else "Error", "JS_ERROR", ""; name and code are never empty |
| `Errors.RebuildIsIdentity` | src/errors.ts:8-18 | building an error again from its own fields gives the same error |
| `Notifications.SpecificHook` | src/context/context.tsx:260-327 | each notifier method names its own callback, never `onStatus` |
| `Notifications.Route` | src/context/context.tsx:246-256 | the specific callback iff it is given; else `onStatus` iff that is given; else nobody; the chosen callback is always a given one |
| `Notifications.NoticeOf` | src/context/context.tsx:260-327 | every notice has a title, a description and an id; the connect failure and the disconnect are errors, the reconnection attempt a warning, the other three informative |
| `Notifications.NoticeIds` | src/context/context.tsx:260-327 | every notice has an id; only a connect failure and a lost connection carry "connect-failure" |
| `Lifecycle.Initial` | src/context/context.tsx:229-244 | a fresh provider uses the placeholder and is closed; it is neither connecting, reconnecting nor connected; it keeps its option properties |
| `Lifecycle.Notify` | src/context/context.tsx:246-256 | one notifier call as effects: a single callback invocation with the kind's notice, or nothing when routing finds no callback |
| `Lifecycle.SplitProps` | src/context/context.tsx:218-228 | the callbacks given are exactly those whose property is truthy; `connect_auto` is not given exactly when it reads `undefined`, and the provider auto-connects exactly when it is truthy or not given; the connection options are the other properties, with their values |
| `Lifecycle.SplitPlainProps` | src/context/context.tsx:218-228 | properties naming none of the eight extracted keys give no callbacks, no `connect_auto` and all of them as connection options |
| `Lifecycle.AutoConnects` | src/context/context.tsx:558 | the provider auto-connects exactly when `connect_auto` is not `false` |
| `Lifecycle.BeginOpen` | src/context/context.tsx:450-467 | afterwards connecting and not connected, with nothing else changed; a never-connected provider emits only the "connecting" notice; otherwise the "reconnecting" notice and a close of the old `nc` come first; then `connect` is called |
| `Lifecycle.FinishOpen` | src/context/context.tsx:469-489 | never connecting afterwards; a rejection changes only `connecting` and emits "connect-failure"; success stores the new connection, sets open, non-mock and connected, and emits "connect-success" |
| `Lifecycle.Open` | src/context/context.tsx:450-489 | not connected and connecting at once afterwards; options and `reconnecting` are untouched; a failure leaves `nc`, `closed` and `isMock` alone and leaves the provider disconnected; a success leaves it connected on the new connection; a close of the old `nc` happens iff the provider is not a mock; a connect is always attempted |
| `Lifecycle.Close` | src/context/context.tsx:491-501 | already closed: no change and no effect; otherwise closed and disconnected; `isMock`, `connecting`, `reconnecting` and options are never changed; the transport close and the reset to the placeholder happen iff the provider was open and not a mock |
| `Lifecycle.CloseTwice` | src/context/context.tsx:491-501 | a second close does nothing |
| `Lifecycle.Update` | src/context/context.tsx:587-590 | the stored options are the right-biased merge (update keys win, other keys kept, an absent update keeps them equal); the rest of the state and the effects are exactly those of `open` |
| `Lifecycle.StatusStep` | src/context/context.tsx:513-544 | only `connected` and `reconnecting` can change; "disconnect" clears `connected` and notifies the disconnect; "reconnect" clears `reconnecting`, sets `connected` and notifies the reconnect; "reconnecting" sets `reconnecting` and notifies it; any other event does nothing |
| `Lifecycle.ApplyEvents` | src/context/context.tsx:513-545 | a run of status events changes only `connected` and `reconnecting`, emits at most one notice per event, and does nothing when no event is one of the three handled ones |
| `Lifecycle.ApplyEventsSnoc` | src/context/context.tsx:513-545 | handling one more event extends the run's state and effects by that event's step |
| `Lifecycle.Monitor` | src/context/context.tsx:506-552 | a monitor started while closed does nothing; otherwise only `connected` and `reconnecting` change |
| `Lifecycle.Mount` | src/context/context.tsx:557-566 | with `connect_auto` false nothing happens; otherwise a connect is attempted |
| `Lifecycle.Unmount` | src/context/context.tsx:557-566 | the cleanup as written is the first render's `close`, which sees that render's `closed` and returns: no state change and no effect, in every state |
| `Lifecycle.UnmountLeaksConnection` | src/context/context.tsx:557-566 | an auto-connected provider that is unmounted stays connected on its live connection, and no close is requested |
| `Lifecycle.IntendedUnmount` | src/context/context.tsx:560-562 | the intended cleanup is the current `close` when the provider auto-connected, and nothing otherwise; it leaves the provider closed |
| `Lifecycle.IntendedUnmountReleases` | src/context/context.tsx:491-501 | from a settled state the intended cleanup ends closed, disconnected, on the placeholder and settled, having closed the live connection if there was one |
| `Lifecycle.InitialSettled` | src/context/context.tsx:229-244 | a fresh provider satisfies the settled-state relations |
| `Lifecycle.ApplyKeepsSettled` | src/context/context.tsx:450-552 | every complete connect, close, update or status run keeps the settled-state relations |
| `Lifecycle.RunKeepsSettled` | src/context/context.tsx:450-552 | after any sequence of operations, the provider is never connected and connecting at once, never connected while closed, uses the placeholder exactly while closed, and is closed while it has never connected |
| `Lifecycle.ProviderKeepsSettled` | src/context/context.tsx:557-566 | the same holds from a fresh provider, whatever the auto-connect effect did |
| `Lifecycle.NoAutoConnect` | src/context/context.spec.tsx:21-28 | with `connect_auto` false the provider stays closed, not connecting, not reconnecting, not connected |
| `Lifecycle.AutoConnectSucceeds` | src/context/context.spec.tsx:9-18 | connecting while `connect` is pending; afterwards connected, not connecting, not reconnecting, having emitted "connecting" and then "connect-success" |
| `Lifecycle.ReconnectRoundTrip` | src/context/context.tsx:524-537 | "reconnecting" then "reconnect" on an open provider: `reconnecting` goes up then down, the provider ends connected, and the two notices fire in that order |
| `Lifecycle.ReconnectingWhileConnected` | src/context/context.tsx:532-536 | a settled, connected provider that gets "reconnecting" is connected and reconnecting at once |
| `Lifecycle.ReconnectWhileReconnecting` | src/context/context.tsx:450-467 | a `reconnect` while the transport reports "reconnecting" leaves the provider connecting and reconnecting at once |
| `Subscriptions.Guard` | src/context/context.tsx:437-438 | the installed member is always the guard, around the original or else the no-op, and it reaches the transport iff the original did |
| `Subscriptions.Invoke` | src/context/context.tsx:438-446 | a missing member throws `TypeError`; the guard throws iff the transport is reached and raises a non-`TypeError`, and then throws exactly that error; a guard that does not reach the transport never throws |
| `Subscriptions.RepeatedUnsubscribeNeverThrows` | src/context/context.tsx:438-446 | repeated calls of the guard whose transport failures are all `TypeError`s never throw |
| `Subscriptions.Subscription.constructor` | src/context/context.tsx:436 | a handle from the transport, with the given `unsubscribe` member and no calls yet |
| `Subscriptions.Subscription.InstallGuard` | src/context/context.tsx:438-446 | overwrites `unsubscribe` in place with the guard of the old member |
| `Subscriptions.Subscription.Unsubscribe` | src/context/context.tsx:438-446 | a call ends as `Invoke` says; the transport's own unsubscribe is called with `max` iff it is reached |
| `Provider.NatsProvider.constructor` | src/context/context.tsx:218-244 | the properties are split as `Lifecycle.SplitProps` says, and the state variables start at the initial state with the split-off connection options, with no effects |
| `Provider.NatsProvider.Emit` | src/context/context.tsx:246-256 | appends exactly the routed callback invocation |
| `Provider.NatsProvider.BeginOpen` | src/context/context.tsx:450-467 | performs `Lifecycle.BeginOpen` on the fields |
| `Provider.NatsProvider.FinishOpen` | src/context/context.tsx:469-489 | performs `Lifecycle.FinishOpen` on the fields |
| `Provider.NatsProvider.Open` | src/context/context.tsx:450-489 | performs `Lifecycle.Open` on the fields |
| `Provider.NatsProvider.Close` | src/context/context.tsx:491-501 | performs `Lifecycle.Close` on the fields |
| `Provider.NatsProvider.Update` | src/context/context.tsx:587-590 | performs `Lifecycle.Update` on the fields |
| `Provider.NatsProvider.OnStatusEvent` | src/context/context.tsx:515-544 | performs `Lifecycle.StatusStep` on the fields |
| `Provider.NatsProvider.Monitor` | src/context/context.tsx:506-552 | the loop over the status stream performs `Lifecycle.Monitor` on the fields |
| `Provider.NatsProvider.Mount` | src/context/context.tsx:557-566 | performs `Lifecycle.Mount` on the fields |
| `Provider.NatsProvider.Unmount` | src/context/context.tsx:560-562 | performs `Lifecycle.IntendedUnmount` on the fields |
| `Provider.NatsProvider.Subscribe` | src/context/context.tsx:432-448 | returns a fresh handle whose `unsubscribe` is guarded; a live connection's handle reaches the transport, the placeholder's does not |
| `Provider.AutoConnectTrace` | src/context/context.spec.tsx:9-18 | a provider given only `servers` and `tls` keeps them as its options, auto-connects on mount and, against a reachable broker, ends connected, not connecting, not reconnecting, open |
| `Provider.NoAutoConnectTrace` | src/context/context.spec.tsx:21-28 | a provider given `connect_auto` false keeps only `servers` and `tls` as its options and keeps its initial flags after mounting |
| `DefaultContext.Call` | src/context/context.tsx:139-202 | every operation of the default context fails with "NATS context has not been initialized yet" and the default name, code and description; the state values are unchanged; exactly the `async` operations fail through their promise |
| `DefaultContext.DefaultLooksFresh` | src/context/context.tsx:139-144 | the default context shows the same flags as a fresh provider |
| `RequestHook.SplitAuto` | src/hooks/request.tsx:24-31 | without options: no request options and no auto-fire; otherwise the request options are exactly the other properties, and auto-fire iff `auto` is truthy |
| `RequestHook.MergeOptions` | src/hooks/request.tsx:80-83 | an undefined update gives no options; otherwise the right-biased merge of the current options with the update |
| `RequestHook.PayloadOf` | src/hooks/request.tsx:96 | the payload when `values.payload` is bytes, else undefined |
| `RequestHook.UpdateWithoutPayloadClearsData` | src/hooks/request.tsx:96-97 | an update without a payload sets `data` to undefined |
| `RequestHook.RequestState.constructor` | src/hooks/request.tsx:24-43 | the options and the auto switch come from the split; `data` is the payload; not loading, no result, no error, unlocked |
| `RequestHook.RequestState.BeginRequest` | src/hooks/request.tsx:46-48 | sets loading, then issues one request with the current subject, data and options |
| `RequestHook.RequestState.Settle` | src/hooks/request.tsx:49-64 | ends not loading; a reply clears the error and stores the message; a failure stores the error with its message, code, description and name, and keeps the old result |
| `RequestHook.RequestState.DoRequest` | src/hooks/request.tsx:46-65 | one request is issued, then the reply settles the state as `Settle` says |
| `RequestHook.RequestState.AutoFire` | src/hooks/request.tsx:67-74 | a request goes out iff unlocked, connected and auto, and then the reply settles `loading`, `result` and `error` as `Settle` says; otherwise nothing changes |
| `RequestHook.RequestState.UpdatePayload` | src/hooks/request.tsx:76-78 | `data` becomes the given payload, undefined included |
| `RequestHook.RequestState.UpdateOptions` | src/hooks/request.tsx:80-83 | the options become `MergeOptions` of the old options and the update |
| `RequestHook.RequestState.Update` | src/hooks/request.tsx:93-102 | undefined values leave `data` and options alone; otherwise `data` becomes the payload (undefined included) and the other properties are merged into the options; the lock ends released |

## Findings

| source | as written | input that shows it | evidently intended | confidence | as-written member | corrected member |
|---|---|---|---|---|---|---|
| src/context/context.tsx:557-566 | the effect has no dependencies, so its cleanup calls the first render's `close`, which reads that render's `closed` (true) and returns at once | `connect_auto` absent, `connect` succeeds, then the provider is unmounted: the live connection is never closed and the state still says connected | the cleanup closes the connection the provider opened, as the current `close` does | high (not executed) | `Lifecycle.UnmountLeaksConnection` | `Lifecycle.IntendedUnmount` |

`Lifecycle.Unmount` models the cleanup as written. `Provider.NatsProvider.Unmount`
performs the intended one.

## Left out

- User callbacks are assumed to return normally. `_notify` calls them without a `try`,
  so a throwing callback aborts its caller. At the start of `open`, a throwing `onConnect`
  (never-connected provider), `onReconnecting` (otherwise) or `onStatus` stops it before
  `connecting` is set. A throwing `onConnectFailure`
  stops `open` before `connecting` is cleared, so `connecting` stays true. A throwing
  `onDisconnect`, `onReconnect` or `onReconnecting` ends the monitor's loop. The model's
  promises that `open` ends with `connecting` false hold only under this assumption.
- React machinery is not modelled: `useState` setters, effect scheduling and dependency
  arrays, `createContext`/`useContext` and JSX. Each setter is a field assignment, applied
  in source order.
- The options passed to `connect` are not modelled: the `ConnectRequested` effect carries
  none. `update` calls the `open` of its own render, and that `open` passes the same
  render's `connectionOptions` to `connect`. So the connect that `update` starts always
  uses the options from before the merge. The merged options reach only a later
  `connect` or `reconnect`. This is the same stale closure as the unmount cleanup under
  "## Findings". `Lifecycle.Update` promises only that the merged options are stored.
- Concurrency is left out. This covers overlapping `open` calls, a status event arriving
  while a `connect` is pending, and the monitor being restarted on every change of `nc`
  or `closed`. Each provider operation in `Lifecycle.Run` runs to completion, and the
  monitor handles a finite prefix of the status stream.
- Lifecycle.RunKeepsSettled: covers only sequences of complete operations. A `connect`
  still pending while other operations run is outside it. In that window `connecting` is
  true, so the settled-state relations do not hold then.
- The close outcome is not an input. `open` swallows every error of `nc.close()`, and
  `close` never awaits the promise, so no outcome can change the state.
- Publishing and requesting through the provider (`publish`, `publishText`,
  `publishJson`, `request`, `requestText`, `requestJson`) are left out: each is one call
  to the transport. Their text and JSON re-wrapping delegates to the codecs, which are
  not part of this model.
- The transport (nats.ws) itself is left out: its connection, its status stream and its
  error classes. Status events are compared by their type strings.
- Each render of the provider builds a new placeholder connection. All placeholders are
  one value here.
- Numbers in option bags are integers; floating point is not modelled.
- Console logging is left out.
- `RequestHook.RequestState`: `auto` is fixed when the state is built. The hook
  recomputes it on every render from its arguments.
- The `connected` flag that `useRequest` reads from the context is an input of
  `AutoFire`.
- The raw thrown value that the hook stores in `error.err` is not kept. The model keeps
  only the four properties the hook reads (`message`, `code`, `description`, `name`).
  These read `undefined` both for a thrown `undefined` and for an error object without
  them, so the model does not tell those two apart.
- A callback property set to a falsy value other than `undefined` counts as not given.
  For the five specific callbacks this matches `notifier ? notifier : onStatus`. For
  `onStatus` the source would call the value and throw a `TypeError`, which the
  callbacks-return-normally assumption above excludes.
- src/io, src/utils, src/hooks/subscribiption.tsx, the demo pages and the test-environment
  script are not part of this model.
