/** The optional-value datatype shared by every module: `None` stands for JavaScript's
    `undefined`/`null` or for an absent C++ layer. */
module Wrappers {
  datatype Option<+T> = None | Some(value: T)
}
