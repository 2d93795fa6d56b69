/** Failure-carrying values used where the scripts would raise or produce NaN. */
module Wrappers {

  datatype Option<+T> = None | Some(value: T)

  datatype Result<+R, +E> = Success(value: R) | Failure(error: E)

  /** Errors that the scripts raise (as Python exceptions) and the model returns. */
  datatype Error =
    | UnknownSoilClass(soilClass: string)   // `list.index` raises ValueError
    | TooManyCategories(count: nat)         // index of the wrong length
    | NoMatchingCategory(cell: nat)         // a grid cell whose category is not in the table
    | MissingColumn(key: string)            // a land-use column that does not exist (KeyError)
    | IndexOutOfRange(index: nat)           // positional index past the end (IndexError)
    | EmptyIndex                            // `min` of an empty date index (ValueError)
}
