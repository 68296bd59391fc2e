/** Why a step of the configuration pipeline raised. */
module Errors {

  datatype Reason =
    /** `.get` or `**` applied to something that is not a dict (Python's AttributeError / TypeError) */
    | NotAMapping
    /** an `lru_cache` key that Python cannot hash (TypeError: unhashable type) */
    | Unhashable
    /** an exception raised by a collaborator, with its message */
    | Raised(message: string)
}
