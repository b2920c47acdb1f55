/** Optional values. In this model `None` stands for a value JavaScript leaves undefined
    (an unselected date) or for the NaN that a failed number parse yields. */
module Wrappers {

  datatype Option<+T> = None | Some(value: T)
}
