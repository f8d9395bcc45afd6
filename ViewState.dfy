/** The states a view's content can be in. */
module ViewState {
  import opened Wrappers

  /**
   * `Idle` always carries content; `Loading` and `Error` may keep the
   * content shown before them. `E` stands for the error that ended a load.
   */
  datatype ViewState<T, E> =
    | Idle(content: T)
    | Loading(previous: Option<T>)
    | Error(error: E, previous: Option<T>)
}
