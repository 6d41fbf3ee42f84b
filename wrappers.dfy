/** Optional values: a dialog the user may cancel, a combo box or date picker
    left unselected, a spinner without a value. */
module Wrappers {

  datatype Option<+T> = None | Some(value: T)
}
