/**
 * The subscription handle `subscribe` returns (src/context/context.tsx:432-448):
 * the provider overwrites the handle's `unsubscribe` member, in place, with a
 * wrapper that calls the original and swallows `TypeError`s.
 */
module Subscriptions {
  import opened Wrappers

  /** A value thrown by a call. */
  datatype Thrown = TypeError(message: string) | OtherError(name: string, message: string)

  /** How a call ends: normally, or by throwing. */
  datatype Completion = Normal | Throw(error: Thrown)

  /** What a handle's `unsubscribe` member currently is. */
  datatype Unsubscriber =
    | Missing                          // no such member (subscriptions of the placeholder connection)
    | NoOp                             // the fallback `(..._) => {}`
    | Native                           // the transport's own unsubscribe
    | Guarded(original: Unsubscriber)  // the wrapper `subscribe` installs around `original`

  /** Whether calling `u` reaches the transport's own unsubscribe. */
  predicate ReachesNative(u: Unsubscriber) {
    match u
    case Missing => false
    case NoOp => false
    case Native => true
    case Guarded(o) => ReachesNative(o)
  }

  /** The member installed by `subscribe`: the original when there is one, else the no-op, wrapped. */
  function Guard(u: Unsubscriber): (g: Unsubscriber)
    ensures g.Guarded? && g.original != Missing
    ensures ReachesNative(g) == ReachesNative(u)
    ensures u != Missing ==> g.original == u
  {
    Guarded(if u == Missing then NoOp else u)
  }

  /**
   * Calling `sub.unsubscribe(max)` when the transport's own unsubscribe, if it
   * is reached, ends as `native`. Calling a missing member throws a
   * `TypeError`; the guard swallows every `TypeError` and re-throws anything else.
   */
  function Invoke(u: Unsubscriber, native: Completion): (r: Completion)
    ensures u == Missing ==> r.Throw? && r.error.TypeError?
    ensures u == Native ==> r == native
    ensures u.Guarded? ==> (r.Throw? <==> ReachesNative(u) && native.Throw? && native.error.OtherError?)
    ensures u.Guarded? && r.Throw? ==> r == native
    ensures !ReachesNative(u) && u != Missing ==> r == Normal
    decreases u
  {
    match u
    case Missing => Throw(TypeError("sub.unsubscribe is not a function"))
    case NoOp => Normal
    case Native => native
    case Guarded(o) =>
      var inner := Invoke(o, native);
      if inner.Throw? && inner.error.TypeError? then Normal else inner
  }

  /**
   * Calling the installed member any number of times, each time the transport
   * either succeeds or fails with a `TypeError` (a subscription already gone),
   * never throws.
   */
  lemma {:induction false} RepeatedUnsubscribeNeverThrows(u: Unsubscriber, natives: seq<Completion>)
    requires forall i :: 0 <= i < |natives| ==> natives[i].Normal? || natives[i].error.TypeError?
    ensures forall i :: 0 <= i < |natives| ==> Invoke(Guard(u), natives[i]) == Normal
  {
  }

  /** A subscription handle of the transport, as `subscribe` hands it out. */
  class Subscription {
    const subject: string
    var unsubscribe: Unsubscriber
    /** The `max` arguments the transport's own unsubscribe has been called with, oldest first. */
    var nativeCalls: seq<Option<int>>

    constructor (subject: string, unsubscribe: Unsubscriber)
      ensures this.subject == subject && this.unsubscribe == unsubscribe && nativeCalls == []
    {
      this.subject := subject;
      this.unsubscribe := unsubscribe;
      nativeCalls := [];
    }

    /** `sub.unsubscribe = (max) => { try { unsub.call(sub, max) } catch (e) { ... } }`. */
    method InstallGuard()
      modifies this
      ensures unsubscribe == Guard(old(unsubscribe)) && nativeCalls == old(nativeCalls)
    {
      unsubscribe := Guard(unsubscribe);
    }

    /** `sub.unsubscribe(max)`. */
    method Unsubscribe(max: Option<int>, native: Completion) returns (r: Completion)
      modifies this
      ensures unsubscribe == old(unsubscribe)
      ensures r == Invoke(unsubscribe, native)
      ensures nativeCalls == old(nativeCalls) + (if ReachesNative(unsubscribe) then [max] else [])
    {
      r := Invoke(unsubscribe, native);
      if ReachesNative(unsubscribe) {
        nativeCalls := nativeCalls + [max];
      }
    }
  }
}
