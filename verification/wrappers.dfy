/** The optional value used where the numeric code produces a non-finite
    number (a division by zero, which numpy turns into inf or nan). */
module Wrappers {

  datatype Option<+T> = None | Some(value: T)
}
