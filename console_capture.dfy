/**
 * The console-capture injector of the preview panel
 * (`PreviewPanel._wrapWithConsoleCapture`) and the error page it shows when
 * the previewed file cannot be read (`PreviewPanel._getErrorContent`).
 */
module ConsoleCapture {
  import opened Strings

  /**
   * The script spliced into the previewed document. Inside the sandboxed
   * iframe it wraps `console.log`/`warn`/`error`/`info` and listens for
   * `error` and `unhandledrejection`, forwarding each as a message tagged
   * `__labConsole` to the parent window. The model treats it as fixed text
   * and splices it verbatim. The source splices it with
   * `String.prototype.replace`, which inserts a replacement text verbatim
   * when it holds no `$`; this text holds none, a fact the model does not
   * prove.
   */
  const ConsoleProxy: string := @"<script>
(function() {
  const origConsole = { log: console.log, warn: console.warn, error: console.error, info: console.info };
  ['log', 'warn', 'error', 'info'].forEach(level => {
    console[level] = function(...args) {
      origConsole[level].apply(console, args);
      try {
        const safeArgs = args.map(a => {
          try { return typeof a === 'object' ? JSON.stringify(a) : String(a); }
          catch { return String(a); }
        });
        parent.postMessage({ __labConsole: true, level, args: safeArgs }, '*');
      } catch(e) {}
    };
  });
  window.addEventListener('error', (e) => {
    parent.postMessage({
      __labConsole: true,
      level: 'error',
      args: [e.message + ' (line ' + e.lineno + ')']
    }, '*');
  });
  window.addEventListener('unhandledrejection', (e) => {
    parent.postMessage({
      __labConsole: true,
      level: 'error',
      args: ['Unhandled Promise: ' + (e.reason?.message || e.reason)]
    }, '*');
  });
})();
</script>"

  /** The marker the proxy is placed after, in the order it is looked for. */
  const HeadTag: string := "<head>"
  const UpperHeadTag: string := "<HEAD>"

  /**
   * The injection rule for an arbitrary script `proxy`: right after the first
   * `<head>`; if there is none, right after the first `<HEAD>`; if there is
   * neither, in front of the document. Nothing else changes.
   */
  function InjectAfterHead(html: string, proxy: string): (r: string)
    ensures Contains(html, HeadTag) ==>
      var i := IndexOf(html, HeadTag).value;
      r == html[..i + |HeadTag|] + proxy + html[i + |HeadTag|..]
    ensures !Contains(html, HeadTag) && Contains(html, UpperHeadTag) ==>
      var i := IndexOf(html, UpperHeadTag).value;
      r == html[..i + |UpperHeadTag|] + proxy + html[i + |UpperHeadTag|..]
    ensures !Contains(html, HeadTag) && !Contains(html, UpperHeadTag) ==> r == proxy + html
    ensures |r| == |html| + |proxy|
    ensures exists k :: 0 <= k <= |html| && r[..k] + r[k + |proxy|..] == html && r[k..k + |proxy|] == proxy
  {
    if Contains(html, HeadTag) then
      var i := IndexOf(html, HeadTag).value;
      assert html[..i] + (HeadTag + proxy) + html[i + |HeadTag|..] == html[..i + |HeadTag|] + proxy + html[i + |HeadTag|..];
      SplicedAt(html, i + |HeadTag|, proxy);
      ReplaceLiteral(html, HeadTag, HeadTag + proxy)
    else if Contains(html, UpperHeadTag) then
      var i := IndexOf(html, UpperHeadTag).value;
      assert html[..i] + (UpperHeadTag + proxy) + html[i + |UpperHeadTag|..] == html[..i + |UpperHeadTag|] + proxy + html[i + |UpperHeadTag|..];
      SplicedAt(html, i + |UpperHeadTag|, proxy);
      ReplaceLiteral(html, UpperHeadTag, UpperHeadTag + proxy)
    else
      SplicedAt(html, 0, proxy);
      assert html[..0] + proxy + html[0..] == proxy + html;
      proxy + html
  }

  /** Text spliced in at `k` is found at `k`, and cutting it out gives back the original. */
  lemma SplicedAt(html: string, k: nat, proxy: string)
    requires k <= |html|
    ensures var r := html[..k] + proxy + html[k..];
      r[..k] + r[k + |proxy|..] == html && r[k..k + |proxy|] == proxy
  {
    var r := html[..k] + proxy + html[k..];
    assert r[..k] == html[..k];
    assert r[k + |proxy|..] == html[k..];
  }

  /** `_wrapWithConsoleCapture(html)`. */
  function WrapWithConsoleCapture(html: string): string {
    InjectAfterHead(html, ConsoleProxy)
  }

  /** Only the two exact spellings are recognised: a document whose head tag is `<Head>` gets the proxy in front. */
  lemma MixedCaseHeadIsNotRecognised()
    ensures forall proxy :: InjectAfterHead("<Head>", proxy) == proxy + "<Head>"
  {
    var s := "<Head>";
    forall i | 0 <= i <= |s| ensures !OccursAt(s, HeadTag, i) && !OccursAt(s, UpperHeadTag, i) {
      if i == 0 {
        assert s[1] != HeadTag[1] && s[2] != UpperHeadTag[2];
      }
    }
  }

  const ErrorPageHead: string := "<!DOCTYPE html>\n<html><head><meta charset=\"UTF-8\"></head>\n<body style=\"background:#0d1117;color:#f85149;font-family:monospace;padding:2rem;\">\n  <h2>\U{201A}\U{00F6}\U{2020}\U{00D4}\U{220F}\U{00E8} Preview Error</h2>\n  <pre>"
  const ErrorPageTail: string := "</pre>\n</body></html>"

  /**
   * `_getErrorContent(errorMsg)`: the diagnostic page shown instead of the
   * preview. The message is placed inside `<pre>` as it is, NOT escaped.
   */
  function ErrorContent(errorMsg: string): (page: string)
    ensures |page| == |ErrorPageHead| + |errorMsg| + |ErrorPageTail|
    ensures OccursAt(page, errorMsg, |ErrorPageHead|)
    ensures page[..|ErrorPageHead|] == ErrorPageHead && page[|ErrorPageHead| + |errorMsg|..] == ErrorPageTail
  {
    ErrorPageHead + errorMsg + ErrorPageTail
  }
}
