/**
 The few JavaScript value rules the client code leans on, made explicit:
 `undefined` as an option, the truthiness of strings, and the two
 defaulting operators `||` and `??`, which treat the empty string
 differently.
 */
module JsValues {

  /** A value that may be `undefined` (None). */
  datatype Option<+T> = None | Some(value: T)

  /** JavaScript truthiness of a possibly-undefined string: `undefined` and "" are falsy. */
  predicate Truthy(s: Option<string>) {
    s.Some? && s.value != ""
  }

  /** `a || b` on possibly-undefined strings: skips both `undefined` and "". */
  function Or(a: Option<string>, b: Option<string>): Option<string> {
    if Truthy(a) then a else b
  }

  /** `s || fallback` on a defined string. */
  function OrElse(s: string, fallback: string): string {
    if s != "" then s else fallback
  }

  /** `a ?? b`: skips only `undefined`, so a defined "" is kept. */
  function Coalesce<T>(a: Option<T>, b: T): T {
    if a.Some? then a.value else b
  }

  /** `o?.f`: the optional-chaining read of a field through `f`. */
  function Chain<T, U>(o: Option<T>, f: T -> U): Option<U> {
    if o.Some? then Some(f(o.value)) else None
  }

  /** The two defaulting operators part ways exactly on a defined empty string. */
  lemma OrDiffersFromCoalesce(a: Option<string>, b: string)
    ensures Or(a, Some(b)) != Some(Coalesce(a, b)) <==> a == Some("") && b != ""
  {
  }
}
