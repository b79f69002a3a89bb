/**
 * The few Python built-in behaviours the model relies on: the exceptions
 * the core can raise and `str.startswith`.
 */
module Py {
  /** An exception raised by a Python built-in: a missing dict key, an
      operation applied to a value of the wrong type, a missing attribute. */
  datatype PyError = KeyError(key: string) | TypeError | AttributeError

  /** `s.startswith(prefix)`. */
  predicate StartsWith(s: string, prefix: string)
  {
    |prefix| <= |s| && s[..|prefix|] == prefix
  }
}
