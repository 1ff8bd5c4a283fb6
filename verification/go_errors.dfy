/** Go error values as far as the constructor uses them: a message, and for
    an error built with `fmt.Errorf("...%w", cause)` the cause it wraps. */
module GoErrors {
  import opened Wrappers
  import opened GoStrings

  /** `text` is what `Error()` returns; `wrapped` is what `errors.Unwrap` returns. */
  datatype GoError = GoError(text: GoString, wrapped: Option<GoError>)

  /** `fmt.Errorf(prefix + "%w", cause)`: the message is the prefix followed by
      the cause's message, and unwrapping gives back the cause itself. */
  function Wrap(prefix: GoString, cause: GoError): (e: GoError)
    ensures e.wrapped == Some(cause)
    ensures |e.text| == |prefix| + |cause.text|
    ensures e.text[..|prefix|] == prefix && e.text[|prefix|..] == cause.text
  {
    GoError(prefix + cause.text, Some(cause))
  }

  /** `errors.Is`: `e` is `target` or unwraps to it. Errors are compared by
      value here, where Go compares error pointers by identity, and custom
      `Is` methods are not modelled; every use in this model compares an
      error with itself or with the cause it wraps. */
  predicate Is(e: GoError, target: GoError)
    decreases e
  {
    e == target || (e.wrapped.Some? && Is(e.wrapped.value, target))
  }

  /** Wrapping never hides the cause from `errors.Is`. */
  lemma WrapKeepsCause(prefix: GoString, cause: GoError, target: GoError)
    ensures Is(cause, target) ==> Is(Wrap(prefix, cause), target)
  {
  }
}
