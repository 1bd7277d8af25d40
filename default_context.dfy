/**
 * The context value seen by components outside any provider
 * (src/context/context.tsx:139-202): fixed state values, and operations that
 * all throw a `NatsContextError`.
 */
module DefaultContext {
  import opened Wrappers
  import opened Errors
  import Lifecycle
  import JsValues

  /** The operations a context value offers. */
  datatype Operation =
    | Connect | Close | Update | Reconnect | Subscribe
    | Publish | PublishText | PublishJson
    | Request | RequestText | RequestJson

  const NOT_INITIALIZED := "NATS context has not been initialized yet"

  /** The state values a context offers. */
  datatype Attrs = Attrs(nc: Lifecycle.Handle, connected: bool, connecting: bool, reconnecting: bool, closed: bool)

  const DEFAULT_ATTRS := Attrs(Lifecycle.Placeholder, false, false, false, true)

  /** The operations declared `async`: they fail by rejecting their promise rather than by throwing. */
  predicate IsAsync(op: Operation) {
    op.Connect? || op.Close? || op.Reconnect? || op.Request? || op.RequestText? || op.RequestJson?
  }

  /** How a call on the default context ends, and the state values it leaves. */
  datatype Outcome = Outcome(attrs: Attrs, raised: Option<ContextError>, viaPromise: bool)

  /**
   * Calling `op` on the default context: it always throws the
   * not-initialised error, with the constructor's default name, code and
   * description, and the state values stay as they were.
   */
  function Call(attrs: Attrs, op: Operation): (r: Outcome)
    ensures r.attrs == attrs
    ensures r.raised.Some?
    ensures r.viaPromise <==> op in {Connect, Close, Reconnect, Request, RequestText, RequestJson}
    ensures r.raised.value.message == NOT_INITIALIZED
    ensures r.raised.value.name == "Error" && r.raised.value.code == "JS_ERROR" && r.raised.value.description == ""
  {
    Outcome(attrs, Some(NewContextError(NOT_INITIALIZED, None)), IsAsync(op))
  }

  /** Outside a provider a component sees the same flags as inside a fresh one. */
  lemma DefaultLooksFresh(options: JsValues.Options)
    ensures var s := Lifecycle.Initial(options);
            DEFAULT_ATTRS == Attrs(s.nc, s.connected, s.connecting, s.reconnecting, s.closed)
  {
  }
}
