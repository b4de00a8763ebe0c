/** Shared Option datatype: a value that may be absent (a DOM element that
    does not exist, an array search that found nothing). */
module Wrappers {

  datatype Option<+T> = None | Some(value: T)
}
