/** The small part of Kotlin's semantics the app leans on: nullable values,
    exceptions carrying an optional message, `toString()` of a nullable
    string, and `String.isBlank()`. */
module Kotlin {

  /** A Kotlin `T?`: `None` is `null`. */
  datatype Option<+T> = None | Some(value: T) {

    /** The elvis operator `this ?: default`. */
    function OrElse(default: T): T {
      match this
      case Some(v) => v
      case None => default
    }
  }

  /** The result of a Kotlin call that may throw: either the value it
      returned, or an exception with its (nullable) `localizedMessage`. */
  datatype Fallible<+T> = Returned(value: T) | Thrown(message: Option<string>)

  /** `s.orEmpty()` on a `String?`. */
  function OrEmpty(s: Option<string>): string {
    s.OrElse("")
  }

  /** `s.toString()` on a `String?`: a null reference prints as "null". */
  function Stringify(s: Option<string>): string {
    match s
    case Some(v) => v
    case None => "null"
  }

  /** The message a `catch (e: Exception)` block shows:
      `e.localizedMessage ?: fallback`. An exception built as
      `Exception(msg)` with a non-null `msg` has `msg` as its message. */
  function ErrorText(message: Option<string>, fallback: string): string {
    message.OrElse(fallback)
  }

  /** `Char.isWhitespace()` on the JVM: `Character.isWhitespace` (the ASCII
      controls TAB..CR and FS..US, plus the space, line and paragraph
      separators other than the no-break spaces) or `Character.isSpaceChar`
      (every space, line and paragraph separator, no-break ones included). */
  predicate IsWhitespace(c: char) {
    || ('\t' <= c <= '\r')
    || ('\U{1C}' <= c <= '\U{1F}')
    || c == ' '
    || c == '\U{A0}'
    || c == '\U{1680}'
    || ('\U{2000}' <= c <= '\U{200A}')
    || c == '\U{2028}'
    || c == '\U{2029}'
    || c == '\U{202F}'
    || c == '\U{205F}'
    || c == '\U{3000}'
  }

  /** `String.isBlank()`: empty, or whitespace only. */
  predicate IsBlank(s: string) {
    forall i :: 0 <= i < |s| ==> IsWhitespace(s[i])
  }
}
