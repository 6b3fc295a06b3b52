/** Optional values and the JavaScript `||` fallbacks that the dashboard uses to read
    loosely shaped order records: a missing field, an empty string and the number 0
    are all falsy, so `a || b` yields `b` for them. */
module Fallback {

  datatype Option<+T> = None | Some(value: T)

  /** A number field that is present and non-zero (a truthy number). */
  predicate TruthyNumber(a: Option<int>) {
    a.Some? && a.value != 0
  }

  /** A string field that is present and non-empty (a truthy string). */
  predicate TruthyText(a: Option<string>) {
    a.Some? && a.value != ""
  }

  /** `a || b` where `a` is a number field and `b` a number. */
  function NumberOr(a: Option<int>, b: int): int {
    if TruthyNumber(a) then a.value else b
  }

  /** `a || b` on two string fields; the result may itself be missing or empty. */
  function TextOr(a: Option<string>, b: Option<string>): Option<string> {
    if TruthyText(a) then a else b
  }

  /** `a || b || d` on two string fields and a literal default. */
  function TextOrDefault(a: Option<string>, b: Option<string>, d: string): string {
    var t := TextOr(a, b);
    if TruthyText(t) then t.value else d
  }

  /** The string a value becomes as a dictionary key or inside a template literal:
      a missing value prints as "undefined". */
  function KeyText(a: Option<string>): string {
    if a.Some? then a.value else "undefined"
  }

  /** The number a value becomes in a relational comparison: `null` converts to 0. */
  function NumberValue(a: Option<int>): int {
    if a.Some? then a.value else 0
  }
}
