/**
 * The captcha sub-flow's token capture.
 *
 * src/extract_token.js replaces `XMLHttpRequest.prototype.setRequestHeader`
 * in the embedded login page with a wrapper that reports an `Authorization`
 * header value to the host (through `external.invoke`) and then forwards the
 * call to the original setter. In src/main.rs, `extract_token_from_discord`
 * keeps the reported value and closes the embedded window at once.
 *
 * The embedded page is modelled by the finite sequence of header calls it
 * makes before the window closes (the user closing the window ends the
 * sequence).
 */
module TokenCapture {
  import opened Wrappers

  /** One `setRequestHeader(name, value)` call made by the page. */
  datatype Header = Header(name: string, value: string)

  const Authorization: string := "Authorization"
  const Bearer: string := "Bearer"

  /**
   * The wrapper's report condition: the header name is exactly
   * "Authorization", the value is truthy (a non-empty string) and the value
   * does not start with "Bearer".
   */
  predicate Reports(h: Header)
  {
    h.name == Authorization && h.value != "" && !(Bearer <= h.value)
  }

  /** Only `Authorization` headers are ever reported; the name is case-sensitive. */
  lemma ReportsOnlyAuthorization(h: Header)
    ensures Reports(h) ==> h.name == "Authorization"
    ensures h.name == "authorization" ==> !Reports(h)
  {
  }

  /** An empty value and a value starting with "Bearer" are never reported. */
  lemma ReportsNeverEmptyOrBearer(h: Header)
    ensures h.value == "" ==> !Reports(h)
    ensures |h.value| >= 6 && h.value[..6] == "Bearer" ==> !Reports(h)
  {
  }

  /** Every other `Authorization` value is reported. */
  lemma ReportsEveryOtherAuthorization(h: Header)
    requires h.name == "Authorization" && h.value != ""
    requires !(|h.value| >= 6 && h.value[..6] == "Bearer")
    ensures Reports(h)
  {
  }

  /**
   * The patched `setRequestHeader` of one page: `reported` holds the values
   * given to `external.invoke`, `forwarded` the calls passed on to the
   * original setter.
   */
  class HeaderHook {
    var reported: seq<string>
    var forwarded: seq<Header>

    /** The script has just been injected: nothing reported or forwarded yet. */
    constructor ()
      ensures reported == [] && forwarded == []
    {
      reported := [];
      forwarded := [];
    }

    /**
     * One call of the patched setter: the value is reported unchanged when
     * the condition holds, and the call is always forwarded with the same
     * arguments.
     */
    method SetRequestHeader(h: Header)
      modifies this
      ensures forwarded == old(forwarded) + [h]
      ensures reported == old(reported) + (if Reports(h) then [h.value] else [])
    {
      if Reports(h) {
        reported := reported + [h.value];
      }
      forwarded := forwarded + [h];
    }
  }

  /**
   * The value the embedded session yields: the value of the first reported
   * header, or None if the window closed before any header was reported.
   */
  function FirstReported(calls: seq<Header>): (r: Option<string>)
    ensures r.None? <==> forall k :: 0 <= k < |calls| ==> !Reports(calls[k])
    ensures r.Some? ==> exists i :: 0 <= i < |calls| && Reports(calls[i]) && r.value == calls[i].value
                          && forall k :: 0 <= k < i ==> !Reports(calls[k])
  {
    if calls == [] then None
    else if Reports(calls[0]) then Some(calls[0].value)
    else
      var rest := FirstReported(calls[1..]);
      assert forall k :: 1 <= k < |calls| ==> calls[k] == calls[1..][k - 1];
      if rest.Some? then
        var j :| 0 <= j < |calls[1..]| && Reports(calls[1..][j]) && rest.value == calls[1..][j].value
                 && forall k :: 0 <= k < j ==> !Reports(calls[1..][k]);
        assert Reports(calls[j + 1]) && forall k :: 0 <= k < j + 1 ==> !Reports(calls[k]);
        rest
      else rest
  }

  /** Headers the page sets after the first reported one do not change the result. */
  lemma {:induction false} FirstReportedIgnoresLater(calls: seq<Header>, later: seq<Header>)
    requires FirstReported(calls).Some?
    ensures FirstReported(calls + later) == FirstReported(calls)
  {
    if !Reports(calls[0]) {
      assert (calls + later)[1..] == calls[1..] + later;
      FirstReportedIgnoresLater(calls[1..], later);
    }
  }

  /**
   * `extract_token_from_discord`: runs the embedded session over the page's
   * header calls. The invoke handler stores the reported value and exits the
   * window, so the session stops at the first report.
   */
  method ExtractToken(calls: seq<Header>) returns (token: Option<string>, seen: nat)
    ensures token == FirstReported(calls)
    ensures seen <= |calls|
    ensures token.None? ==> seen == |calls|
    ensures token.Some? ==> 0 < seen && token.value == calls[seen - 1].value
  {
    var hook := new HeaderHook();
    token := None;
    seen := 0;
    while seen < |calls| && token.None?
      invariant 0 <= seen <= |calls|
      invariant hook.forwarded == calls[..seen]
      invariant hook.reported == if token.Some? then [token.value] else []
      invariant token.None? ==> forall k :: 0 <= k < seen ==> !Reports(calls[k])
      invariant token.Some? ==> 0 < seen && Reports(calls[seen - 1]) && token.value == calls[seen - 1].value
                                && forall k :: 0 <= k < seen - 1 ==> !Reports(calls[k])
    {
      hook.SetRequestHeader(calls[seen]);
      if hook.reported != [] {
        // the invoke handler: keep the value, then webview.exit()
        token := Some(hook.reported[0]);
      }
      seen := seen + 1;
    }
  }
}
