/**
 * A `localStorage` slot holding a JSON document. Serialisation is the
 * identity: what was written is what a later read parses.
 */
module Storage {
  /** Nothing stored, a stored document that parses, or one that throws when parsed. */
  datatype Stored<T> = Absent | Parsed(value: T) | Corrupt {
    /** The parsed document, or `default` when the read fails (`try { ... } catch { return default }`). */
    function ReadOr(default: T): T {
      if Parsed? then value else default
    }
  }
}

/** The notification sink (`toast`), recorded as a list of notices. */
module Toasts {
  /** The i18n message keys the map and search controllers show. */
  datatype Message = LocationFound | LocationDenied | LocationUnavailable | LocationTimeout | SearchFailed

  datatype Toast = Success(message: Message) | Error(message: Message)
}
