/**
  Script text handled by every version of the library: the self-invoking wrapper that
  `inject` puts around each fragment, the accumulated injection buffer, the bridge
  script each platform starts that buffer with, and the default index page.
 */
module Script {

  import Native

  const IifeLeft: string := "(() => {"
  const IifeRight: string := "})()"

  /** A fragment wrapped as an immediately invoked arrow function. */
  function Wrap(code: string): string {
    IifeLeft + code + IifeRight
  }

  /** Recovers the fragment from a wrapped text, if the text has the wrapper's shape. */
  function Unwrap(s: string): (r: Native.Option<string>)
    ensures r.Some? ==> Wrap(r.value) == s
  {
    if |s| >= |IifeLeft| + |IifeRight| && s[..|IifeLeft|] == IifeLeft && s[|s| - |IifeRight|..] == IifeRight
    then
      var code := s[|IifeLeft|..|s| - |IifeRight|];
      assert s == s[..|IifeLeft|] + code + s[|s| - |IifeRight|..];
      Native.Some(code)
    else Native.None
  }

  /** Wrapping loses nothing: the fragment can be read back from its wrapped form. */
  lemma WrapRoundTrip(code: string)
    ensures Unwrap(Wrap(code)) == Native.Some(code)
  {
    var s := Wrap(code);
    assert s[..|IifeLeft|] == IifeLeft;
    assert s[|s| - |IifeRight|..] == IifeRight;
    assert s[|IifeLeft|..|s| - |IifeRight|] == code;
  }

  /** One `inject` step on the accumulated buffer: the wrapped fragment is appended. */
  function Inject(buffer: string, code: string): (r: string)
    ensures |r| == |buffer| + |code| + |IifeLeft| + |IifeRight|
    ensures r[..|buffer|] == buffer
    ensures Unwrap(r[|buffer|..]) == Native.Some(code)
  {
    WrapRoundTrip(code);
    var r := buffer + Wrap(code);
    assert r[|buffer|..] == Wrap(code);
    r
  }

  /** The buffer after injecting `codes` one after the other, starting from `buffer`. */
  function InjectAll(buffer: string, codes: seq<string>): string
    decreases |codes|
  {
    if codes == [] then buffer else InjectAll(Inject(buffer, codes[0]), codes[1..])
  }

  /** The wrapped fragments of `codes`, concatenated in order. */
  function WrappedAll(codes: seq<string>): string
    decreases |codes|
  {
    if codes == [] then "" else Wrap(codes[0]) + WrappedAll(codes[1..])
  }

  /**
    Injections accumulate in call order and never reorder or drop anything: the buffer
    after a sequence of injections is the starting buffer followed by every wrapped
    fragment, first call first.
   */
  lemma {:induction false} InjectAllAppendsInOrder(buffer: string, codes: seq<string>)
    ensures InjectAll(buffer, codes) == buffer + WrappedAll(codes)
    decreases |codes|
  {
    if codes != [] {
      InjectAllAppendsInOrder(Inject(buffer, codes[0]), codes[1..]);
      assert buffer + Wrap(codes[0]) + WrappedAll(codes[1..]) == buffer + (Wrap(codes[0]) + WrappedAll(codes[1..]));
    }
  }

  /** Injecting `a` and then `b` gives exactly Wrap(a) + Wrap(b) after the old buffer. */
  lemma InjectTwice(buffer: string, a: string, b: string)
    ensures InjectAll(buffer, [a, b]) == buffer + Wrap(a) + Wrap(b)
  {
    assert [a, b][1..] == [b];
    assert [b][1..] == [];
    calc {
      InjectAll(buffer, [a, b]);
      InjectAll(Inject(buffer, a), [b]);
      InjectAll(Inject(Inject(buffer, a), b), []);
    }
  }

  /** Injecting `a` followed by `b` is injecting `a`, then injecting `b` into the result. */
  lemma {:induction false} InjectAllConcat(buffer: string, a: seq<string>, b: seq<string>)
    ensures InjectAll(buffer, a + b) == InjectAll(InjectAll(buffer, a), b)
    decreases |a|
  {
    if a == [] {
      assert a + b == b;
    } else {
      assert (a + b)[0] == a[0];
      assert (a + b)[1..] == a[1..] + b;
      InjectAllConcat(Inject(buffer, a[0]), a[1..], b);
    }
  }

  /** The starting buffer (the bridge script, on every backend) stays a prefix of the buffer. */
  lemma InjectAllKeepsPrefix(buffer: string, codes: seq<string>)
    ensures |buffer| <= |InjectAll(buffer, codes)|
    ensures InjectAll(buffer, codes)[..|buffer|] == buffer
  {
    InjectAllAppendsInOrder(buffer, codes);
  }

  /** The bridge the GTK backends start their buffer with: `window.external.<name>` posts to the "external" handler. */
  function LinuxBridge(methodName: string): string {
    "window.external={" + methodName + ":arg=>window.webkit.messageHandlers.external.postMessage(arg)};"
  }

  /** The bridge the WebView2 backends start their buffer with: `window.external.<name>` posts a web message. */
  function WindowsBridge(methodName: string): string {
    "window.external." + methodName + "=arg=>window.chrome.webview.postMessage(arg);"
  }

  /**
    The default index page: a `data:` URL holding an HTML document with one empty
    `<div id="app">` and one empty script tag. The source literal is a raw string, so
    its lines keep the indentation of the file they are written in (`indent`).
   */
  function DefaultDocument(indent: string): (r: string)
    ensures |r| >= 15 && r[..15] == "data:text/html,"
  {
    var body := "\n"
      + indent + "<!DOCTYPE html>\n"
      + indent + "<html lang=\"en\">\n"
      + indent + "<head>\n"
      + indent + "<meta charset=\"utf-8\">\n"
      + indent + "<meta http-equiv=\"X-UA-Compatible\" content=\"IE=edge\">\n"
      + indent + "</head>\n"
      + indent + "<body>\n"
      + indent + "<div id=\"app\"></div>\n"
      + indent + "<script type=\"text/javascript\"></script>\n"
      + indent + "</body>\n"
      + indent + "</html>";
    PrefixOfConcat("data:text/html,", body);
    "data:text/html," + body
  }

  lemma PrefixOfConcat(a: string, b: string)
    ensures (a + b)[..|a|] == a
  {
  }

  /** `default_index_url` of the v3 base (indented by seven tabs in its file). */
  function DefaultIndexUrlV3(): string { DefaultDocument("\t\t\t\t\t\t\t") }

  /** `default_url` of the v1 and v2 construction arguments (indented by four tabs). */
  function DefaultUrlV2(): string { DefaultDocument("\t\t\t\t") }

  /** The page a web view is constructed with: the given index URL, or `fallback`, the generation's default document, when none is given. */
  function IndexUrl(indexUrl: Native.Option<string>, fallback: string): (r: string)
    ensures indexUrl.Some? ==> r == indexUrl.value
    ensures indexUrl.None? ==> r == fallback
  {
    match indexUrl
    case Some(u) => u
    case None => fallback
  }
}
