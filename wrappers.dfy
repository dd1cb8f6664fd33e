/** The optional-value wrapper used across the model. `None` also stands for a
    JavaScript field that is absent from a payload (`undefined`). */
module Wrappers {

  datatype Option<+T> = None | Some(value: T)
}
