/** Optional values and results, shared by every module of the model. */
module Wrappers {

  /**
   * `None` stands for a JavaScript property that is absent (undefined) in the request
   * modules, and for a NULL column in the database rows of the webhook.
   */
  datatype Option<+T> = None | Some(value: T)

  datatype Result<+R, +E> = Success(value: R) | Failure(error: E)
}
