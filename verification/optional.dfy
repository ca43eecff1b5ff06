/** The absent-or-present values of the viewer: a pan offset that may be unset,
    a page record that may be missing past the end of the document. */
module Optional {

  datatype Option<+T> = None | Some(value: T)

}
