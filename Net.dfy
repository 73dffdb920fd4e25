/** What the two form pages get back from their `fetch` call, and the error
    text their `catch` blocks display. The request itself is external. */
module Net {
  import opened Options

  /** The awaited outcome: either a response with its `ok` status and the
      `message` and `token` of its JSON body, each a string or missing, or a rejection of `fetch` or
      of `response.json()` carrying the error's `message`. */
  datatype Outcome =
    | Answered(ok: bool, message: Option<string>, token: Option<string>)
    | Rejected(reason: string)

  predicate Succeeded(o: Outcome) {
    o.Answered? && o.ok
  }

  /** JavaScript's `text || fallback` for a string that may be missing. */
  function OrElse(text: Option<string>, fallback: string): string {
    if text.Some? && text.value != "" then text.value else fallback
  }

  /** The error shown after a failed request: a non-ok response throws
      `new Error(data.message || serverFallback)`, and the `catch` block shows
      `error.message || networkFallback`. */
  function FailureText(o: Outcome, serverFallback: string, networkFallback: string): string
    requires !Succeeded(o)
  {
    var thrown := match o
      case Answered(_, message, _) => OrElse(message, serverFallback)
      case Rejected(reason) => reason;
    OrElse(Some(thrown), networkFallback)
  }

  /** A non-ok response shows its own message when it has a non-empty one and
      otherwise the server fallback; a rejection shows its reason, or the
      network fallback when the reason is empty. */
  lemma FailureTextCases(o: Outcome, serverFallback: string, networkFallback: string)
    requires !Succeeded(o) && serverFallback != ""
    ensures o.Answered? ==>
      FailureText(o, serverFallback, networkFallback) ==
        if o.message.Some? && o.message.value != "" then o.message.value else serverFallback
    ensures o.Rejected? ==>
      FailureText(o, serverFallback, networkFallback) ==
        if o.reason != "" then o.reason else networkFallback
    ensures FailureText(o, serverFallback, networkFallback) != ""  || networkFallback == ""
  {
  }
}
