/**
 * The Django middleware that puts the Klaviyo tracking snippet into HTML
 * pages: just before the first `</body`, when the site has an API token and
 * the request is not an AJAX one.
 */
module Middleware {
  import opened Wrappers
  import opened Text

  const BODY_CLOSE := "</body"
  const CONTENT_TYPE := "Content-Type"
  const CONTENT_LENGTH := "Content-Length"

  /** A Django `HttpResponse`: its body and its headers, both updated in place. */
  class Response {
    var content: string
    var headers: map<string, string>

    constructor (content: string, headers: map<string, string>)
      ensures this.content == content && this.headers == headers
    {
      this.content := content;
      this.headers := headers;
    }
  }

  /** `is_html_response`: the Content-Type header, `''` when absent, mentions `text/html`. */
  predicate IsHtmlResponse(response: Response)
    reads response
  {
    Contains(if CONTENT_TYPE in response.headers then response.headers[CONTENT_TYPE] else "", "text/html")
  }

  /** `is_trackable_response`: an HTML response to a request that is not AJAX. */
  predicate IsTrackableResponse(isAjax: bool, response: Response)
    reads response
  {
    IsHtmlResponse(response) && !isAjax
  }

  /**
   * A response is trackable exactly when the request is not AJAX and the
   * response has a Content-Type header mentioning `text/html`; a missing
   * header reads as `''`, which mentions nothing.
   */
  lemma TrackableResponseNeedsHtml(isAjax: bool, response: Response)
    ensures IsTrackableResponse(isAjax, response) <==>
              !isAjax && CONTENT_TYPE in response.headers
              && exists k :: OccursAt(response.headers[CONTENT_TYPE], "text/html", k)
    ensures isAjax ==> !IsTrackableResponse(isAjax, response)
  {
    if CONTENT_TYPE !in response.headers {
      assert forall k :: !OccursAt("", "text/html", k);
    }
  }

  // The snippet template, line by line, cut around its `{}` and before the
  // brace that opens the JavaScript function body.
  const SCRIPT_OPEN := "<script text=\"text/javascript\">\n"
  const SCRIPT_QUEUE := "  var _learnq = _learnq || [];\n"
  const SCRIPT_PUSH := "  _learnq.push(['account', '"
  const SCRIPT_HEAD := SCRIPT_OPEN + SCRIPT_QUEUE + SCRIPT_PUSH
  const SCRIPT_MID := "']);\n\n  (function () "
  const SCRIPT_BODY := "    var b = document.createElement('script'); b.type = 'text/javascript'; b.async = true;\n"
    + "    b.src = ('https:' == document.location.protocol ? 'https://' : 'http://') + 'a.klaviyo.com/media/js/learnmarklet.js';\n"
    + "    var a = document.getElementsByTagName('script')[0]; a.parentNode.insertBefore(b, a);\n  })();\n</script>"
  const SCRIPT_TAIL := "{\n" + SCRIPT_BODY

  lemma ScriptOpenIsBraceFree()
    ensures BraceFree(SCRIPT_OPEN)
  {
  }

  lemma ScriptQueueIsBraceFree()
    ensures BraceFree(SCRIPT_QUEUE)
  {
  }

  lemma ScriptPushIsBraceFree()
    ensures BraceFree(SCRIPT_PUSH)
  {
  }

  lemma ScriptMidIsBraceFree()
    ensures BraceFree(SCRIPT_MID)
  {
  }

  /** The text around the `{}` holds no brace of its own. */
  lemma ScriptHeadIsBraceFree()
    ensures BraceFree(SCRIPT_HEAD) && BraceFree(SCRIPT_MID)
  {
    ScriptOpenIsBraceFree();
    ScriptQueueIsBraceFree();
    ScriptPushIsBraceFree();
    ScriptMidIsBraceFree();
    BraceFreeConcat(SCRIPT_OPEN, SCRIPT_QUEUE);
    BraceFreeConcat(SCRIPT_OPEN + SCRIPT_QUEUE, SCRIPT_PUSH);
  }

  /** The template as written: the function body's braces are not doubled. */
  const SCRIPT_TEMPLATE := SCRIPT_HEAD + "{}" + SCRIPT_MID + SCRIPT_TAIL

  /** `render_script` as written: `SCRIPT_TEMPLATE.format(api_token)`. */
  function RenderScriptAsWritten(apiToken: string): (r: Result<string, FormatError>)
  {
    Format(SCRIPT_TEMPLATE, apiToken)
  }

  /**
   * As written, rendering fails for every token: after the `{}` is filled,
   * the `{` that opens the function body starts a replacement field named
   * by the JavaScript text up to the next `}`, and no such keyword argument
   * was passed, so `str.format` raises `KeyError`.
   */
  lemma RenderScriptAsWrittenAlwaysFails(apiToken: string)
    ensures RenderScriptAsWritten(apiToken) == Failure(KeyError)
  {
    ScriptHeadIsBraceFree();
    assert SCRIPT_TEMPLATE == SCRIPT_HEAD + "{}" + SCRIPT_MID + (['{', '\n'] + SCRIPT_BODY);
    FormatNamedFieldFails(SCRIPT_HEAD, SCRIPT_MID, '\n', SCRIPT_BODY, apiToken);
  }

  /** `head + middle + tail`, with each piece where it belongs. */
  function Splice(head: string, middle: string, tail: string): (r: string)
    ensures |r| == |head| + |middle| + |tail|
    ensures r[..|head|] == head && r[|head|..|head| + |middle|] == middle && r[|head| + |middle|..] == tail
  {
    head + middle + tail
  }

  /** The snippet as intended: the token in place of `{}`, the JavaScript verbatim. */
  function RenderScript(apiToken: string): (r: string)
    ensures |r| == |SCRIPT_HEAD| + |apiToken| + |SCRIPT_MID| + |SCRIPT_TAIL|
    ensures r[..|SCRIPT_HEAD|] == SCRIPT_HEAD
    ensures r[|SCRIPT_HEAD|..|SCRIPT_HEAD| + |apiToken|] == apiToken
    ensures r[|SCRIPT_HEAD| + |apiToken|..] == SCRIPT_MID + SCRIPT_TAIL
  {
    Splice(SCRIPT_HEAD, apiToken, SCRIPT_MID + SCRIPT_TAIL)
  }

  /** The template with the JavaScript's braces doubled, as `str.format` requires. */
  function EscapedTemplate(): string
  {
    SCRIPT_HEAD + "{}" + Escape(SCRIPT_MID + SCRIPT_TAIL)
  }

  /** Formatting the escaped template with a token renders the intended snippet, for every token. */
  lemma EscapedTemplateRendersScript(apiToken: string)
    ensures Format(EscapedTemplate(), apiToken) == Success(RenderScript(apiToken))
  {
    ScriptHeadIsBraceFree();
    FormatOneField(SCRIPT_HEAD, SCRIPT_MID + SCRIPT_TAIL, apiToken);
    assert SCRIPT_HEAD + apiToken + (SCRIPT_MID + SCRIPT_TAIL) == RenderScript(apiToken);
  }

  /**
   * The page with `script` put just before the first `</body`, or None when
   * the page has none.
   */
  function InsertBeforeBodyClose(content: string, script: string): (r: Option<string>)
    ensures r.None? <==> !Contains(content, BODY_CLOSE)
    ensures r.Some? ==> |r.value| == |content| + |script|
    ensures r.Some? ==>
              var i := Find(content, BODY_CLOSE);
              && r.value[..i] == content[..i]
              && r.value[i..i + |script|] == script
              && r.value[i + |script|..] == content[i..]
  {
    var i := Find(content, BODY_CLOSE);
    if i == -1 then None
    else
      var r := content[..i] + script + content[i..];
      assert r[i..i + |script|] == script;
      Some(r)
  }

  /**
   * The snippet lands right before the first closing body tag: the tag
   * follows it, no earlier tag exists, and cutting the snippet out gives
   * the page back.
   */
  lemma SnippetPrecedesFirstBodyClose(content: string, script: string)
    requires Contains(content, BODY_CLOSE)
    ensures var i := Find(content, BODY_CLOSE);
            var r := InsertBeforeBodyClose(content, script).value;
            && OccursAt(r, BODY_CLOSE, i + |script|)
            && (forall k :: 0 <= k < i ==> !OccursAt(content, BODY_CLOSE, k))
            && r[..i] + r[i + |script|..] == content
  {
    var i := Find(content, BODY_CLOSE);
    var r := InsertBeforeBodyClose(content, script).value;
    assert OccursAt(content, BODY_CLOSE, i);
    assert r[i + |script|..] == content[i..];
    assert r[i + |script|..][..|BODY_CLOSE|] == content[i..][..|BODY_CLOSE|];
    assert content[..i] + content[i..] == content;
  }

  /**
   * `KlaviyoSnippetMiddleware.process_response`. `settingsToken` is the
   * `KLAVIYO_API_TOKEN` setting, None when it is not defined. A trackable
   * page with a `</body` gets the snippet and a Content-Length that is the
   * new length in decimal; any other response is returned untouched.
   */
  method ProcessResponse(settingsToken: Option<string>, isAjax: bool, response: Response)
    modifies response
    ensures settingsToken.None? || !old(IsTrackableResponse(isAjax, response))
            || !Contains(old(response.content), BODY_CLOSE) ==>
              response.content == old(response.content) && response.headers == old(response.headers)
    ensures settingsToken.Some? && old(IsTrackableResponse(isAjax, response)) && Contains(old(response.content), BODY_CLOSE)
            ==> && Some(response.content) == InsertBeforeBodyClose(old(response.content), RenderScript(settingsToken.value))
                && response.headers == old(response.headers)[CONTENT_LENGTH := NatToString(|response.content|)]
                && ParseDecimal(response.headers[CONTENT_LENGTH]) == Some(|response.content|)
  {
    if settingsToken.None? {
      return;
    }
    var apiToken := settingsToken.value;
    if IsTrackableResponse(isAjax, response) {
      var insertAt := Find(response.content, BODY_CLOSE);
      if insertAt != -1 {
        response.content := response.content[..insertAt] + RenderScript(apiToken) + response.content[insertAt..];
        response.headers := response.headers[CONTENT_LENGTH := NatToString(|response.content|)];
        ParseNatToString(|response.content|);
      }
    }
  }
}
