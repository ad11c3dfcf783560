/** A value that may be absent: a storage lookup that found nothing, an
    optional callback argument, a one-shot alarm without a period. */
module Wrappers {
  datatype Option<+T> = None | Some(value: T)
}
