/** What several components share. */
module Common {

  /** How many records a subscription catches up on, and what a subscriber's channel buffers. */
  const CATCH_UP_LIMIT: nat := 500
  const SUB_CHAN_SIZE: nat := 256

  /** The smallest window of either deduplication cache, the broker's and the SDK's. */
  const MIN_CAPACITY: nat := 1024

  datatype Option<T> = None | Some(value: T)
}
