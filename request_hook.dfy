/**
 * The `useRequest` hook (src/hooks/request.tsx): a request issued through the
 * context, with the hook's state variables as the fields of an object whose
 * methods apply the source's setter calls in order.
 */
module RequestHook {
  import opened Wrappers
  import opened JsValues

  /** A reply message; its other members are not part of this model. */
  datatype Msg = Msg(subject: string, data: seq<bv8>)

  /** The properties `err?.message`, `err?.code`, `err?.description`, `err?.name` of a thrown value; `None` is `undefined`. */
  datatype Failure = Failure(message: Option<string>, code: Option<string>, description: Option<string>, name: Option<string>)

  /** How the context's `request` settles. */
  datatype Reply = Replied(msg: Msg) | Failed(err: Failure)

  /** The hook's `error` state. */
  datatype ErrorInfo = ErrorInfo(err: Failure, message: Option<string>, code: Option<string>,
                                 description: Option<string>, name: Option<string>)

  /** One call of the context's `request(subject, data, options)`. */
  datatype Request = Request(subject: string, payload: Option<seq<bv8>>, options: Option<Options>)

  const AUTO := "auto"
  const PAYLOAD := "payload"

  /** The hook's options taken apart: the request options and the auto-fire switch. */
  datatype HookOptions = HookOptions(request: Option<Options>, auto: bool)

  /**
   * `({ auto, ...requestOptions } = opts)`: without options there are no
   * request options and no auto-fire; otherwise `auto` is taken out and every
   * other property becomes a request option.
   */
  function SplitAuto(opts: Option<Options>): (r: HookOptions)
    ensures opts.None? ==> r.request.None? && !r.auto
    ensures opts.Some? ==> r.request.Some? && r.request.value.Keys == opts.value.Keys - {AUTO}
    ensures opts.Some? ==> forall k :: k in r.request.value ==> r.request.value[k] == opts.value[k]
    ensures r.auto <==> opts.Some? && Truthy(Read(opts.value, AUTO))
  {
    if opts.None? then HookOptions(None, false)
    else HookOptions(Some(Omit(opts.value, AUTO)), Truthy(Read(opts.value, AUTO)))
  }

  /**
   * `updateOptions(opts)`: the right-biased merge of the current options with
   * `opts`, or no options at all when `opts` is undefined.
   */
  function MergeOptions(current: Option<Options>, opts: Option<Options>): (r: Option<Options>)
    ensures opts.None? <==> r.None?
    ensures opts.Some? ==> r.value.Keys == Own(current).Keys + opts.value.Keys
    ensures opts.Some? ==> forall k :: k in opts.value ==> r.value[k] == opts.value[k]
    ensures opts.Some? ==> forall k :: k in Own(current) && k !in opts.value ==> r.value[k] == Own(current)[k]
  {
    if opts.Some? then Some(Spread(current, opts)) else None
  }

  /** The `payload` property of `update`'s argument is typed as bytes or `undefined`. */
  predicate PayloadTyped(values: Options) {
    PAYLOAD in values ==> values[PAYLOAD].Bytes? || values[PAYLOAD] == Undefined
  }

  /** The `payload` of `{ payload, ...opts } = values`; absent reads as `undefined`. */
  function PayloadOf(values: Options): (p: Option<seq<bv8>>)
    requires PayloadTyped(values)
    ensures p.Some? <==> PAYLOAD in values && values[PAYLOAD].Bytes?
    ensures p.Some? ==> p.value == values[PAYLOAD].bytes
  {
    match Read(values, PAYLOAD)
    case Bytes(b) => Some(b)
    case _ => None
  }

  /** The state of one `useRequest(subject, payload, opts)` instance. */
  class RequestState {
    const subject: string
    const auto: bool
    var options: Option<Options>
    var data: Option<seq<bv8>>
    var loading: bool
    var result: Option<Msg>
    var error: Option<ErrorInfo>
    var lock: bool
    /** The requests issued through the context, oldest first. */
    var requests: seq<Request>

    constructor (subject: string, payload: Option<seq<bv8>>, opts: Option<Options>)
      ensures this.subject == subject
      ensures options == SplitAuto(opts).request && auto == SplitAuto(opts).auto
      ensures data == payload
      ensures !loading && result == None && error == None && !lock && requests == []
    {
      var split := SplitAuto(opts);
      this.subject := subject;
      auto := split.auto;
      options := split.request;
      data := payload;
      loading := false;
      result := None;
      error := None;
      lock := false;
      requests := [];
    }

    /** `doRequest` up to the pending `request`: loading, and the request issued. */
    method BeginRequest()
      modifies this`loading, this`requests
      ensures loading
      ensures requests == old(requests) + [Request(subject, data, options)]
    {
      loading := true;
      requests := requests + [Request(subject, data, options)];
    }

    /** `doRequest` once `request` has settled with `reply`. */
    method Settle(reply: Reply)
      modifies this`loading, this`result, this`error
      ensures !loading
      ensures reply.Replied? ==> error == None && result == Some(reply.msg)
      ensures reply.Failed? ==> result == old(result)
      ensures reply.Failed? ==>
                error == Some(ErrorInfo(reply.err, reply.err.message, reply.err.code, reply.err.description, reply.err.name))
    {
      match reply
      case Replied(msg) =>
        error := None;
        result := Some(msg);
        loading := false;
      case Failed(err) =>
        error := Some(ErrorInfo(err, err.message, err.code, err.description, err.name));
        loading := false;
    }

    /** `doRequest`, also exposed as `refresh`. */
    method DoRequest(reply: Reply)
      modifies this`loading, this`requests, this`result, this`error
      ensures !loading
      ensures requests == old(requests) + [Request(subject, data, options)]
      ensures reply.Replied? ==> error == None && result == Some(reply.msg)
      ensures reply.Failed? ==> result == old(result)
      ensures reply.Failed? ==>
                error == Some(ErrorInfo(reply.err, reply.err.message, reply.err.code, reply.err.description, reply.err.name))
    {
      BeginRequest();
      Settle(reply);
    }

    /** The hook's effect: a request goes out only when unlocked, connected and auto-firing. */
    method AutoFire(connected: bool, reply: Reply) returns (fired: bool)
      modifies this`loading, this`requests, this`result, this`error
      ensures fired <==> !lock && connected && auto
      ensures fired ==> requests == old(requests) + [Request(subject, data, options)] && !loading
      ensures fired && reply.Replied? ==> error == None && result == Some(reply.msg)
      ensures fired && reply.Failed? ==> result == old(result)
      ensures fired && reply.Failed? ==>
                error == Some(ErrorInfo(reply.err, reply.err.message, reply.err.code, reply.err.description, reply.err.name))
      ensures !fired ==> requests == old(requests) && loading == old(loading)
      ensures !fired ==> result == old(result) && error == old(error)
    {
      fired := false;
      if lock {
        return;
      }
      if connected && auto {
        DoRequest(reply);
        fired := true;
      }
    }

    /** `updatePayload(payload)`. */
    method UpdatePayload(payload: Option<seq<bv8>>)
      modifies this`data
      ensures data == payload
    {
      data := payload;
    }

    /** `updateOptions(opts)`. */
    method UpdateOptions(opts: Option<Options>)
      modifies this`options
      ensures options == MergeOptions(old(options), opts)
    {
      options := MergeOptions(options, opts);
    }

    /**
     * `update(values)`: nothing but the lock when `values` is undefined;
     * otherwise the payload replaces `data` (also when it is undefined) and
     * the other properties are merged into the options.
     */
    method Update(values: Option<Options>)
      requires values.Some? ==> PayloadTyped(values.value)
      modifies this`lock, this`data, this`options
      ensures !lock
      ensures values.None? ==> data == old(data) && options == old(options)
      ensures values.Some? ==> data == PayloadOf(values.value)
      ensures values.Some? ==> options == MergeOptions(old(options), Some(Omit(values.value, PAYLOAD)))
    {
      lock := true;
      if values.Some? {
        var opts := Omit(values.value, PAYLOAD);
        UpdatePayload(PayloadOf(values.value));
        UpdateOptions(Some(opts));
      }
      lock := false;
    }
  }

  /** An `update` whose argument has no payload clears the data. */
  lemma UpdateWithoutPayloadClearsData(values: Options)
    requires PAYLOAD !in values
    ensures PayloadTyped(values) && PayloadOf(values) == None
  {
  }
}
