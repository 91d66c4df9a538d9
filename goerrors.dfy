/** Go error values as the dispatcher meets them: plain errors, some of which
    carry a Timeout method, and the *url.Error wrapper the HTTP client puts
    around them. */
module GoErrors {
  import opened Wrappers
  import opened Strings

  datatype GoError =
    /** An error with its Error() text; timeout is None when the value has no
        Timeout() method, and otherwise what that method answers. */
    | Plain(message: string, timeout: Option<bool>)
    /** *url.Error{Op, URL, Err}. */
    | UrlError(op: string, url: string, err: GoError)

  /** err.Error(). */
  function Text(e: GoError): string
  {
    match e
    case Plain(m, _) => m
    case UrlError(op, u, inner) => op + " " + u + ": " + Text(inner)
  }

  /** isTimeout: a *url.Error is unwrapped once, and the result must have a
      Timeout method that answers true. */
  function IsTimeout(e: GoError): (r: bool)
    ensures e.Plain? ==> (r <==> e.timeout == Some(true))
    ensures e.UrlError? && e.err.Plain? ==> (r <==> e.err.timeout == Some(true))
    ensures e.UrlError? && e.err.UrlError? ==> !r
  {
    var inner := match e case UrlError(_, _, x) => x case Plain(_, _) => e;
    inner.Plain? && inner.timeout == Some(true)
  }

  /** Every text an error carries is part of its url.Error wrapper's text, so
      the classifier's text rules see through the wrapper (unlike the timeout
      rule, which sees through one wrapper only). */
  lemma UrlErrorTextContains(op: string, url: string, inner: GoError, needle: string)
    requires Contains(Text(inner), needle)
    ensures Contains(Text(UrlError(op, url, inner)), needle)
  {
    var i := ContainsOccurs(Text(inner), needle);
    var pre := op + " " + url + ": ";
    var s := Text(UrlError(op, url, inner));
    assert s == pre + Text(inner);
    assert s[|pre| + i..|pre| + i + |needle|] == Text(inner)[i..i + |needle|];
    OccursContains(s, needle, |pre| + i);
  }
}
