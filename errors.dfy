/** `NatsContextError`, the error the binding raises itself (src/errors.ts). */
module Errors {
  import opened Wrappers

  /** The optional second argument of the constructor. */
  datatype ErrorOptions = ErrorOptions(name: Option<string>, code: Option<string>, description: Option<string>)

  /** A constructed error: all four fields are strings once built. */
  datatype ContextError = ContextError(message: string, name: string, code: string, description: string)

  const DEFAULT_NAME := "Error"
  const DEFAULT_CODE := "JS_ERROR"
  const DEFAULT_DESCRIPTION := ""

  /** `options?.name`, `options?.code`, `options?.description`: `undefined` when the options object is absent. */
  function NameOf(options: Option<ErrorOptions>): Option<string> {
    if options.Some? then options.value.name else None
  }

  function CodeOf(options: Option<ErrorOptions>): Option<string> {
    if options.Some? then options.value.code else None
  }

  function DescriptionOf(options: Option<ErrorOptions>): Option<string> {
    if options.Some? then options.value.description else None
  }

  /** A string field counts as supplied when it is present and not empty (JavaScript `v || default`). */
  predicate Supplied(v: Option<string>) {
    v.Some? && v.value != ""
  }

  /** `v || default` for a string-or-undefined `v`. */
  function OrDefault(v: Option<string>, default: string): (r: string)
    ensures Supplied(v) ==> r == v.value
    ensures !Supplied(v) ==> r == default
  {
    if v.Some? && v.value != "" then v.value else default
  }

  /**
   * `new NatsContextError(msg, options)`: the message is kept as given; name,
   * code and description take the supplied value unless it is absent or empty,
   * in which case they default to "Error", "JS_ERROR" and "".
   */
  function NewContextError(msg: string, options: Option<ErrorOptions>): (e: ContextError)
    ensures e.message == msg
    ensures e.name != "" && e.code != ""
    ensures Supplied(NameOf(options)) ==> e.name == options.value.name.value
    ensures !Supplied(NameOf(options)) ==> e.name == DEFAULT_NAME
    ensures Supplied(CodeOf(options)) ==> e.code == options.value.code.value
    ensures !Supplied(CodeOf(options)) ==> e.code == DEFAULT_CODE
    ensures Supplied(DescriptionOf(options)) ==> e.description == options.value.description.value
    ensures !Supplied(DescriptionOf(options)) ==> e.description == DEFAULT_DESCRIPTION
  {
    ContextError(
      msg,
      OrDefault(NameOf(options), DEFAULT_NAME),
      OrDefault(CodeOf(options), DEFAULT_CODE),
      OrDefault(DescriptionOf(options), DEFAULT_DESCRIPTION))
  }

  /**
   * Re-constructing an error from its own fields gives back the same error:
   * the defaulting is a fixed point.
   */
  lemma RebuildIsIdentity(e: ContextError, msg: string, options: Option<ErrorOptions>)
    requires e == NewContextError(msg, options)
    ensures NewContextError(e.message, Some(ErrorOptions(Some(e.name), Some(e.code), Some(e.description)))) == e
  {
  }
}
