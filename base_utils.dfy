/** `formatError` (`packages/client/src/utils/baseUtils.ts`, with identical
    copies in `ChartPage.tsx` and `PiePage.tsx`): turning whatever a `catch`
    caught into a message. */
module BaseUtils {
  import opened Wrappers

  /** A value a JavaScript `throw` can raise, as far as `formatError` can tell
      them apart: `typeof` is 'undefined', 'object' for `null` and for objects
      (with or without an own or inherited `message` property), 'string', or
      something else (a number, boolean, bigint, symbol or function) whose
      `toString()` gives `display`. An object's own `toString()` gives its
      `display` too. */
  datatype Thrown =
    | Undefined
    | Null
    | Str(s: string)
    | Obj(message: Option<Thrown>, display: string)
    | Other(display: string)

  /** What a call of `formatError` comes to: a message, or the TypeError it
      raises itself. */
  datatype Formatted = Text(text: string) | RaisesTypeError

  const UNKNOWN_ERROR := "An unkown error occurred"

  /** An `Error` object as `new Error(message)` builds it. */
  function ErrorObject(message: string): Thrown {
    Obj(Some(Str(message)), "Error: " + message)
  }

  /** `v.toString()`: `undefined` and `null` have no such method and raise. */
  function ToStringOf(v: Thrown): (r: Formatted)
    ensures r == RaisesTypeError <==> v.Undefined? || v.Null?
    ensures v.Str? ==> r == Text(v.s)
  {
    match v
    case Undefined => RaisesTypeError
    case Null => RaisesTypeError
    case Str(s) => Text(s)
    case Obj(_, display) => Text(display)
    case Other(display) => Text(display)
  }

  /** `fallback || 'An unkown error occurred'`: an absent or empty fallback is
      falsy. */
  function FallbackText(fallback: Option<string>): (s: string)
    ensures s != ""
    ensures fallback.Some? && fallback.value != "" ==> s == fallback.value
    ensures fallback.None? || fallback.value == "" ==> s == UNKNOWN_ERROR
  {
    if fallback.Some? && fallback.value != "" then fallback.value else UNKNOWN_ERROR
  }

  /** `formatError(error, fallback)`. An object with a `message` gives that
      message's text; a string is returned unchanged; anything else gives the
      fallback. `null` passes the `typeof === 'object'` test and then raises,
      as does an object whose `message` is `null` or `undefined`. */
  function FormatError(error: Thrown, fallback: Option<string>): (r: Formatted)
    ensures r == RaisesTypeError <==>
              error.Null? || (error.Obj? && error.message.Some? && error.message.value in {Undefined, Null})
    ensures error.Obj? && error.message.Some? ==> r == ToStringOf(error.message.value)
    ensures error.Str? ==> r == Text(error.s)
    ensures error.Undefined? || error.Other? || (error.Obj? && error.message.None?) ==>
              r == Text(FallbackText(fallback))
  {
    match error
    case Null => RaisesTypeError
    case Obj(Some(message), _) => ToStringOf(message)
    case Str(s) => Text(s)
    case _ => Text(FallbackText(fallback))
  }

  /** An `Error` object formats to its message, whatever the fallback. */
  lemma ErrorObjectFormatsToMessage(message: string, fallback: Option<string>)
    ensures FormatError(ErrorObject(message), fallback) == Text(message)
  {
  }
}
