/** The nullable values of the account code (a missing date bound, kind or total). */
module Wrappers {

  datatype Option<+T> = None | Some(value: T)
}
