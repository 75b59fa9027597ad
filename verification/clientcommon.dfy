/**
 * What the front-end service hooks share: the outcome of an
 * `authenticatedFetch`, the error text they derive from a failure, the
 * toasts they show and the avatar address they build.
 */
module ClientCommon {

  /** JavaScript's `a || b` on strings: the empty string is falsy. */
  function Or(a: string, b: string): string
  {
    if a != "" then a else b
  }

  /**
   * The outcome of a request: a parsed OK body; a non-OK status whose JSON
   * body had `message` and `error` fields ("" when absent or unparsable);
   * or a request that threw, with the thrown error's message.
   */
  datatype Response<T> = Ok(data: T) | Failed(message: string, error: string) | Threw(reason: string)

  /**
   * The message of the error a hook ends up catching: for a non-OK status
   * the body's `message`, else its `error`, else the hook's own fallback.
   */
  function ErrorMessage<T>(r: Response<T>, fallback: string): (m: string)
    requires !r.Ok?
    ensures r.Failed? && fallback != "" ==> m != ""
    ensures r.Failed? && r.message != "" ==> m == r.message
    ensures r.Failed? && r.message == "" && r.error != "" ==> m == r.error
    ensures r.Failed? && r.message == "" && r.error == "" ==> m == fallback
    ensures r.Threw? ==> m == r.reason
  {
    if r.Failed? then Or(Or(r.message, r.error), fallback) else r.reason
  }

  datatype ToastKind = Success | Error | Info

  /** A call of `showToast(text, kind)`. */
  datatype Toast = Toast(text: string, kind: ToastKind)

  /** The toast a hook shows for a failure: the caught error's message, or its own text when that is empty. */
  function FailureToast<T>(r: Response<T>, fallback: string, toastFallback: string): (t: Toast)
    requires !r.Ok?
    ensures t.kind == Error
    ensures toastFallback != "" ==> t.text != ""
    ensures r.Failed? && fallback != "" ==> t.text == ErrorMessage(r, fallback)
    ensures ErrorMessage(r, fallback) != "" ==> t.text == ErrorMessage(r, fallback)
    ensures ErrorMessage(r, fallback) == "" ==> t.text == toastFallback
  {
    Toast(Or(ErrorMessage(r, fallback), toastFallback), Error)
  }

  /** The default picture shown for a user without an avatar. */
  const DefaultAvatar := "/avatar.png"

  /** An uploaded avatar's address under `baseUrl`, or the default picture when there is none. */
  function AvatarUrl(baseUrl: string, avatar: string): (url: string)
    ensures avatar == "" ==> url == DefaultAvatar
    ensures avatar != "" ==> url == baseUrl + "/uploads/" + avatar
  {
    if avatar != "" then baseUrl + "/uploads/" + avatar else DefaultAvatar
  }
}
