/**
  The third-generation base (`impl/v3/web_view_base.hpp`) shared by the v3 GTK and
  WebView2 adapters: the window and page settings, the service state, and the
  buffering of title and URL writes until the adapter is running. An adapter owns one
  `WebViewBase` and implements the `do_*` hooks on it; the hooks the base forwards to
  (`do_set_window_title`, `do_navigate`) are one native call on both platforms, which
  the base records in the shared log.
 */
module BaseV3 {

  import opened Native
  import Script

  datatype ServiceStartResult = Success | StateNotInitialized | ServiceInitializeFailed

  datatype ServiceStateResult = Uninitialized | Initialized | Running | Shutdown

  datatype NavigateResult = Success | ServiceNotReadyYet | NavigateFailed

  const DefaultWindowWidth: int := 800
  const DefaultWindowHeight: int := 600

  class WebViewBase {
    var width: int
    var height: int
    var title: string
    var fixed: bool
    var fullscreen: bool
    var devTools: bool
    var state: ServiceStateResult
    var url: string
    var callback: Option<CallbackId>
    var injected: string
    /** Native effects of this web view and of its adapter, in order. */
    ghost var log: seq<Op>

    constructor(width: int, height: int, title: string, fixed: bool, fullscreen: bool, devTools: bool,
                indexUrl: Option<string>)
      ensures this.width == width && this.height == height && this.title == title
      ensures this.fixed == fixed && this.fullscreen == fullscreen && this.devTools == devTools
      ensures state == Uninitialized && url == Script.IndexUrl(indexUrl, Script.DefaultIndexUrlV3())
      ensures callback == None && injected == "" && log == []
    {
      this.width := width;
      this.height := height;
      this.title := title;
      this.fixed := fixed;
      this.fullscreen := fullscreen;
      this.devTools := devTools;
      state := Uninitialized;
      url := Script.IndexUrl(indexUrl, Script.DefaultIndexUrlV3());
      callback := None;
      injected := "";
      log := [];
    }

    /** Swaps the new callback in (no composition); the previous one is handed back to be destroyed. */
    method RegisterJavascriptCallback(cb: Option<CallbackId>) returns (dropped: Option<CallbackId>)
      modifies this`callback
      ensures callback == cb && dropped == old(callback)
    {
      dropped := callback;
      callback := cb;
    }

    /** Buffered while not running (last write wins); sent to the window while running, leaving the stored title as it was. */
    method SetWindowTitle(t: string)
      modifies this`title, this`log
      ensures old(state) != Running ==> title == t && log == old(log)
      ensures old(state) == Running ==> title == old(title) && log == old(log) + [SetTitle(t)]
    {
      if state != Running {
        title := t;
      } else {
        log := log + [SetTitle(t)];
      }
    }

    function ServiceState(): (s: ServiceStateResult)
      reads this
      ensures s == state
    {
      state
    }

    /**
      While not running the URL is buffered (last write wins), nothing is loaded and
      the call is refused with `ServiceNotReadyYet`. While running one load is issued
      and the adapter's `do_navigate` result (`backendResult`) is returned; the stored
      URL is left as it was.
     */
    method Navigate(target: string, backendResult: NavigateResult) returns (r: NavigateResult)
      modifies this`url, this`log
      ensures old(state) != Running ==> r == ServiceNotReadyYet && url == target && log == old(log)
      ensures old(state) == Running ==> r == backendResult && url == old(url) && log == old(log) + [Native.Navigate(target)]
    {
      if state != Running {
        url := target;
        r := ServiceNotReadyYet;
      } else {
        log := log + [Native.Navigate(target)];
        r := backendResult;
      }
    }

    /** Appends the wrapped fragment in every state. */
    method Inject(code: string)
      modifies this`injected
      ensures injected == Script.Inject(old(injected), code)
    {
      injected := injected + Script.Wrap(code);
    }
  }

  /**
    A client that buffers two titles and two URLs before the service runs: the last
    write wins, both navigations are refused, and nothing reaches the native side.
   */
  method BufferedWrites(v: WebViewBase, t1: string, t2: string, u1: string, u2: string)
      returns (r1: NavigateResult, r2: NavigateResult)
    requires v.state != Running
    modifies v
    ensures v.title == t2 && v.url == u2
    ensures r1 == ServiceNotReadyYet && r2 == ServiceNotReadyYet
    ensures v.log == old(v.log) && v.state == old(v.state)
  {
    v.SetWindowTitle(t1);
    r1 := v.Navigate(u1, NavigateResult.Success);
    v.SetWindowTitle(t2);
    r2 := v.Navigate(u2, NavigateResult.Success);
  }
}
