/** The optional value used where the script would compute a number that is
    not one (a division of zero by zero). */
module Wrappers {
  datatype Option<+T> = None | Some(value: T)
}
