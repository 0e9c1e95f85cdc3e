/** The optional-value datatype shared by the modules of this model. */
module Wrappers {

  /** `None` stands for a value that is absent (JavaScript `undefined`) or
      for a lookup or parse that did not succeed. */
  datatype Option<+T> = None | Some(value: T)
}
