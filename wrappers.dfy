/** A value that may be absent: the host's player object, which is null until
 *  the game has created it, and an optional user action in one GUI frame. */
module Wrappers {
  datatype Option<+T> = None | Some(value: T)
}
