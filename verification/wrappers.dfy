/** The optional value used for the nullable references of the pages
    (the selected sticker, the current image, the camera track). */
module Wrappers {

  datatype Option<+T> = None | Some(value: T)
}
