/** The optional value used for a best record that has not been stored yet
    (`null` in the game's record table). */
module Wrappers {

  datatype Option<+T> = None | Some(value: T)

}
