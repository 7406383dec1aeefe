/** A small optional-value datatype, used for the nullable references of the
    session (`websocket`) and for "no message of this sender yet". */
module Wrappers {

  datatype Option<+T> = None | Some(value: T)
}
