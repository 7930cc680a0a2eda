/**
 * What the pages do to the outside world, as values: the toasts they show,
 * the routes they navigate to, and the outcomes of the HTTP calls they await.
 */
module Effects {
  import opened Wrappers

  /** A side effect a handler performs, recorded in the order it happens. */
  datatype Event =
    | Navigate(path: string)
    | Toast(title: string, description: string, destructive: bool)

  /**
   * A rejected promise: an axios error (with the HTTP status and the body's
   * `detail` and `message` fields when a response arrived) or any other error.
   */
  datatype Failure =
    | AxiosError(status: Option<int>, detail: Option<string>, message: Option<string>)
    | OtherError

  /** The settled outcome of an awaited HTTP call. */
  datatype Response<T> = Ok(data: T) | Err(failure: Failure)

  /** An axios error whose response carries the given HTTP status. */
  predicate HasStatus(f: Failure, code: int) {
    f.AxiosError? && f.status == Some(code)
  }

  /** A 401 or 403 response: the stored token is no longer accepted. */
  predicate IsAuthError(f: Failure) {
    HasStatus(f, 401) || HasStatus(f, 403)
  }

  /** `error.response?.data?.detail || fallback` (non-axios errors have no response). */
  function DetailOr(f: Failure, fallback: string): string {
    if f.AxiosError? && f.detail.Some? && f.detail.value != "" then f.detail.value else fallback
  }

  /** The route every session failure leads to. */
  const LoginPath := "/admin/login"
}
