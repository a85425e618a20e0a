/** Small value types shared by every part of the model. */
module Shared {

  datatype Option<+T> = None | Some(value: T)

  /** A value caught by a JavaScript `catch` clause: an `Error` object carries
      a message, anything else thrown does not. */
  datatype Raised = ErrorObject(message: string) | NonError

  /** A toast notification: its title, its description, and whether it uses
      the destructive (error) variant. */
  datatype Toast = Toast(title: string, description: string, destructive: bool)

  const GenericErrorText: string := "An error occurred"

  /** The description the page's `catch` clauses show:
      `error instanceof Error ? error.message : 'An error occurred'`. */
  function CaughtText(e: Raised): string
  {
    match e
    case ErrorObject(m) => m
    case NonError => GenericErrorText
  }

  /** JavaScript's `s || fallback` on strings: the empty string is falsy. */
  function OrElse(s: string, fallback: string): (r: string)
    ensures r == s || r == fallback
    ensures r == fallback <==> s == [] || s == fallback
  {
    if s != [] then s else fallback
  }

  /** `o?.x || fallback` for an optional string. */
  function OptionOrElse(o: Option<string>, fallback: string): string
  {
    match o
    case Some(s) => OrElse(s, fallback)
    case None => fallback
  }

  function Last<T>(s: seq<T>): T
    requires |s| > 0
  {
    s[|s| - 1]
  }

  /** `s` is a prefix of `t`. */
  predicate IsPrefix<T(==)>(s: seq<T>, t: seq<T>) {
    |s| <= |t| && t[..|s|] == s
  }
}
