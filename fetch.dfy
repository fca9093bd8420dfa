/**
 * What the client's network calls give back, as the code that awaits them
 * sees it, and the JavaScript truthiness tests it applies to optional text.
 */
module Fetch {
  import opened Wrappers

  datatype Response<T> =
    | Success(body: T)
    | Failure(detail: Option<string>)
    /** `message` is `None` when what was thrown is not an `Error`. */
    | Thrown(message: Option<string>)

  /** JavaScript truthiness of a stored string: present and non-empty. */
  predicate Truthy(s: Option<string>) {
    s.Some? && s.value != ""
  }

  /** `x || fallback` for an optional string. */
  function OrElse(x: Option<string>, fallback: string): (r: string)
    ensures Truthy(x) ==> r == x.value
    ensures !Truthy(x) ==> r == fallback
  {
    if Truthy(x) then x.value else fallback
  }

  /**
   * The error text of a failed call: `detail || fallback` for a non-OK
   * response, the message of a thrown `Error` (even an empty one), and the
   * fallback for anything else thrown.
   */
  function ErrorText<T>(r: Response<T>, fallback: string): (t: string)
    requires !r.Success?
    ensures r.Failure? && Truthy(r.detail) ==> t == r.detail.value
    ensures r.Failure? && !Truthy(r.detail) ==> t == fallback
    ensures r.Thrown? && r.message.Some? ==> t == r.message.value
    ensures r.Thrown? && r.message.None? ==> t == fallback
  {
    if r.Failure? then OrElse(r.detail, fallback) else r.message.GetOr(fallback)
  }
}
