/** Option and Result values shared by every module of the model. A `Result`
    stands for a Python call that either returns or raises; the error is the
    text of the exception (`str(e)`). */
module Wrappers {

  datatype Option<T> = None | Some(value: T)

  datatype Result<T> = Ok(value: T) | Err(error: seq<char>)
}
