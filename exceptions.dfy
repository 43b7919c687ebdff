/** The exceptions the client raises, directly or through Python's builtins. */
module Exceptions {

  datatype Error =
    /** `d[key]` on a dict without `key` (a missing keyword argument). */
    | KeyError(key: string)
    /** Raised by the client on an unknown table key or certificate type,
        and by `int()` on text that is not an integer literal. */
    | ValueError(message: string)
    /** A builtin given None where it needs a string. */
    | TypeError
    /** Indexing past the end of a list. */
    | IndexError
    /** An attribute looked up on None. */
    | AttributeError
    /** The client's own exception for an invalid contact record. */
    | ContactValidationError(value: string)
}
