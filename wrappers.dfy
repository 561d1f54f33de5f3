/** Option and Result values used for the source's "may be absent" fields and
    for its raised errors. */
module Wrappers {

  datatype Option<+T> = None | Some(value: T)

  datatype Result<+R, +E> = Success(value: R) | Failure(error: E)

  /** The two fatal conditions of the download: both are raised as ValueError
      in the source. */
  datatype DownloadError =
    | NoLayerList   // layer discovery returned no layer names
    | NoData        // no longitude band produced any feature
}
