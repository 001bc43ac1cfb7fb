/** What the retry loops of a pull and of a publication agree on. */
module Retries {
  /** How often a request is tried again. */
  const MAX_RETRIES: nat := 3

  /** A reply that is tried again. */
  predicate ServerError(status: nat) { 500 <= status < 600 }
}
