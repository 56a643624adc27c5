/** The optional-value datatype the model uses wherever the source reads an
    optional property or indexes an object: `None` stands for JavaScript's
    `undefined`. */
module Wrappers {

  datatype Option<+T> = None | Some(value: T)
}
