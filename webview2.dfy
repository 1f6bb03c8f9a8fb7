/**
  What the two WebView2 adapters (`web_view_windows.cpp` and `web_view_windows_v3.cpp`)
  share in bringing a web view up on a window: the stages of the asynchronous bring-up
  and the native calls issued by the start request and by the controller-created
  handler before the page is loaded.
 */
module WebView2 {

  import opened Native
  import Win32

  /** How far the asynchronous bring-up started by `do_service_start` (`do_run` in the first generation) has got. */
  datatype Stage =
    | Idle                  // nothing requested, or the last request failed
    | EnvironmentRequested  // CreateCoreWebView2EnvironmentWithOptions accepted the request
    | ControllerRequested   // CreateCoreWebView2Controller was called
    | Attached              // the controller and its web view are in place

  /** The start request from `CoInitializeEx` on: what is issued for each outcome of the two calls that can fail. */
  function ServiceStartOps(coOk: bool, envOk: bool, path: string): seq<Op> {
    if !coOk then []
    else [CoInitialize, CreateEnvironment(path)] + (if envOk then [] else [CoUninitialize])
  }

  /**
    What the controller-created handler issues before the service runs: developer tools
    if asked, the web view sized to the client area, the injection buffer as
    document-start script.
   */
  function ControllerSetupOps(devTools: bool, injected: string, client: Rect): seq<Op> {
    (if devTools then [EnableDevTools] else []) + [SetControllerBounds(client), AddDocumentStartScript(injected)]
  }

  /**
    The whole of a successful controller-created handler: the setup, the fullscreen step
    when the flag is set, then one load of the stored URL. No title is sent.
   */
  function BringUpOps(devTools: bool, injected: string, client: Rect, fullscreen: bool,
                      window: Win32.WindowAttrs, monitor: Rect, url: string): seq<Op> {
    ControllerSetupOps(devTools, injected, client) + FullscreenReplayOps(fullscreen, window, monitor) + [Native.Navigate(url)]
  }

  /** The fullscreen part of the bring-up: the entering step when the flag is set, nothing otherwise. */
  function FullscreenReplayOps(fullscreen: bool, window: Win32.WindowAttrs, monitor: Rect): seq<Op> {
    if fullscreen then Win32.EnterFullscreen(window, monitor).ops else []
  }

  /**
    The bring-up leaves the window's title as it was and makes the stored URL the
    page's latest load.
   */
  lemma BringUpLatest(log: seq<Op>, devTools: bool, injected: string, client: Rect, fullscreen: bool,
                      window: Win32.WindowAttrs, monitor: Rect, url: string)
    ensures var ops := BringUpOps(devTools, injected, client, fullscreen, window, monitor, url);
      && LastSet(log + ops, TitleAspect) == LastSet(log, TitleAspect)
      && LastSet(log + ops, PageAspect) == Some(Native.Navigate(url))
  {
    var ops := BringUpOps(devTools, injected, client, fullscreen, window, monitor, url);
    var init := ops[..|ops| - 1];
    assert ops == init + [Native.Navigate(url)];
    LastSetNone(ops, TitleAspect);
    LastSetConcat(log, ops, TitleAspect);
    LastSetSnoc(log + init, Native.Navigate(url), PageAspect);
    assert log + ops == log + init + [Native.Navigate(url)];
  }
}
