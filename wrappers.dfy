/** The optional value used for JSON `null`, for `dict.get` on a missing key
    and for a parse that fails. */
module Wrappers {

  datatype Option<+T> = None | Some(value: T)

}
