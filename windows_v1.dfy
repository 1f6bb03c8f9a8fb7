/**
  The first-generation WebView2 adapter (`webview/src/web_view_windows.cpp`). Unlike the
  later generations it keeps all of its state itself: whether the web view is ready, the
  fullscreen flag, the DPI, the fullscreen snapshot, the title, the document-start
  script buffer, the URL waiting for the web view and the message callback. The window
  is created by `do_initialize`; `do_run` asks WebView2 for an environment, whose
  completion asks for a controller, whose completion attaches the web view. Win32 and
  WebView2 calls are entries of the log.
 */
module WindowsV1 {

  import opened Native
  import Script
  import Win32
  import Profile
  import opened WebView2

  /**
    The user-data folder of this adapter as written: the `APPDATA` buffer keeps its
    full size after `shrink_to_fit`, so the C API reads the folder only up to the
    first NUL of its padding.
   */
  function EnvironmentPath(temp: bool, tempDir: string, appData: Option<string>, exe: string): string {
    Profile.EnvironmentFolder(temp, tempDir, Profile.AppDataBaseV1AsWritten(appData), exe)
  }

  /**
    As written, a temporary environment lives in the temporary directory joined with
    the executable's stem, but any other environment lives in `APPDATA` itself.
   */
  lemma EnvironmentPathAsWritten(tempDir: string, appData: string, exe: string)
    requires Profile.WellFormedFolder(tempDir) && Profile.NulFree(exe)
    requires Profile.WellFormedFolder(appData) && |appData| < Profile.V1AppDataCapacity
    ensures EnvironmentPath(true, tempDir, Some(appData), exe) == tempDir + "\\" + Profile.Stem(exe)
    ensures EnvironmentPath(false, tempDir, Some(appData), exe) == appData
  {
    Profile.EnvironmentFolderTemp(tempDir, Profile.AppDataBaseV1AsWritten(Some(appData)), exe);
    Profile.EnvironmentFolderV1AsWrittenDropsStem(tempDir, appData, exe);
  }

  /** The user-data folder as evidently intended, with the `APPDATA` buffer cut to the length read. */
  function EnvironmentPathIntended(temp: bool, tempDir: string, appData: Option<string>, exe: string): string {
    Profile.EnvironmentFolder(temp, tempDir, Profile.AppDataBaseV1(appData), exe)
  }

  /**
    With the corrected `APPDATA` read, the user-data folder is the temporary directory
    joined with the executable's stem when a temporary environment is asked for, and
    `APPDATA` joined with it otherwise.
   */
  lemma EnvironmentPathChoice(tempDir: string, appData: string, exe: string)
    requires Profile.WellFormedFolder(tempDir) && Profile.NulFree(exe)
    requires Profile.WellFormedFolder(appData) && |appData| < Profile.V1AppDataCapacity
    ensures EnvironmentPathIntended(true, tempDir, Some(appData), exe) == tempDir + "\\" + Profile.Stem(exe)
    ensures EnvironmentPathIntended(false, tempDir, Some(appData), exe) == appData + "\\" + Profile.Stem(exe)
  {
    Profile.EnvironmentFolderTemp(tempDir, Profile.AppDataBaseV1(Some(appData)), exe);
    Profile.EnvironmentFolderV1(tempDir, appData, exe);
  }

  class WebViewWindows {
    /** `is_ready_`: the web view is attached. */
    var isReady: bool
    var devTools: bool
    var tempEnvironment: bool
    /** `current_is_fullscreen_` */
    var fullscreen: bool
    /** `dpi_` */
    var dpi: int
    /** `window_info_` */
    var saved: Win32.SavedWindowInfo
    /** The style, extended style and rectangle of the native window, as this adapter has set them. */
    var window: Win32.WindowAttrs
    /** `window_ != nullptr`, and the window carries a pointer to this object. */
    var hasWindow: bool
    /** `window_title_` */
    var title: string
    /** `preload_js_code_`: run at the start of every document. */
    var preload: string
    /** `pending_redirect_url_` */
    var pendingUrl: string
    var callback: Option<CallbackId>
    var stage: Stage
    /** The window currently has the fullscreen geometry. */
    ghost var inFullscreen: bool
    ghost var log: seq<Op>

    /**
      The web view is ready exactly when it is attached. A fullscreen window has the
      fullscreen flag set, and once the web view is ready the flag says whether the
      window really is fullscreen (before that, the flag given to `do_initialize` is
      only a request).
     */
    ghost predicate Valid()
      reads this
    {
      && (isReady <==> stage == Attached)
      && (inFullscreen ==> fullscreen)
      && (isReady ==> fullscreen == inFullscreen)
    }

    /**
      Every flag is false, the DPI 0 and the snapshot zero; there is no window yet, and
      the script buffer starts with the bridge that makes `window.external.<name>` post
      a web message.
     */
    constructor(methodName: string)
      ensures Valid()
      ensures !isReady && !devTools && !tempEnvironment && !fullscreen && !hasWindow && !inFullscreen
      ensures dpi == 0 && saved == Win32.SavedWindowInfo(0, 0, Rect(0, 0, 0, 0))
      ensures preload == Script.WindowsBridge(methodName)
      ensures title == "" && pendingUrl == "" && callback == None && stage == Idle && log == []
    {
      isReady := false;
      devTools := false;
      tempEnvironment := false;
      fullscreen := false;
      dpi := 0;
      saved := Win32.SavedWindowInfo(0, 0, Rect(0, 0, 0, 0));
      window := Win32.WindowAttrs(0, 0, Rect(0, 0, 0, 0));
      hasWindow := false;
      title := "";
      preload := Script.WindowsBridge(methodName);
      pendingUrl := "";
      callback := None;
      stage := Idle;
      inFullscreen := false;
      log := [];
    }

    /**
      `do_initialize`: the three settings are stored first. Then the module handle
      (`moduleOk`) must be obtained, the title is taken, and the window class
      (`classOk`) and the window (`created`, what the system gives) must be obtained; a
      failure at any point returns false. Otherwise the window is created with the title,
      its DPI (`currentDpi`) read, resized to `MulDiv(size, dpi, 96)` at the place the
      system chose, and a window that is not resizable loses its resizing bits. The
      fullscreen flag is only stored: the window is not made fullscreen here.
     */
    method DoInitialize(width: int, height: int, newTitle: string, resizable: bool, isFullscreen: bool,
                        isDevTools: bool, isTemp: bool,
                        moduleOk: bool, classOk: bool, created: Option<Win32.WindowAttrs>, currentDpi: int)
        returns (ok: bool)
      requires Valid() && !isReady && !inFullscreen
      modifies this`devTools, this`fullscreen, this`tempEnvironment, this`title, this`dpi, this`window,
               this`hasWindow, this`log
      ensures Valid() && devTools == isDevTools && fullscreen == isFullscreen && tempEnvironment == isTemp
      ensures ok <==> moduleOk && classOk && created.Some?
      ensures title == if moduleOk then newTitle else old(title)
      ensures !ok ==> dpi == old(dpi) && window == old(window) && hasWindow == old(hasWindow) && log == old(log)
      ensures ok ==>
        var rect := Win32.InitialRect(created.value.rect, width, height, currentDpi);
        var style := if resizable then created.value.style else Win32.ClearBits(created.value.style, Win32.FixedStyleMask);
        && hasWindow && dpi == currentDpi
        && window == Win32.WindowAttrs(style, created.value.exStyle, rect)
        && log == old(log) + [CreateWindow(Some(newTitle), width, height), SetWindowPos(rect)]
                 + (if resizable then [] else [SetStyle(style)])
    {
      devTools := isDevTools;
      fullscreen := isFullscreen;
      tempEnvironment := isTemp;
      ok := OpenWindow(width, height, newTitle, resizable, moduleOk, classOk, created, currentDpi);
    }

    /** The part of `do_initialize` after the settings are stored. */
    method OpenWindow(width: int, height: int, newTitle: string, resizable: bool,
                      moduleOk: bool, classOk: bool, created: Option<Win32.WindowAttrs>, currentDpi: int)
        returns (ok: bool)
      modifies this`title, this`dpi, this`window, this`hasWindow, this`log
      ensures ok <==> moduleOk && classOk && created.Some?
      ensures title == if moduleOk then newTitle else old(title)
      ensures !ok ==> dpi == old(dpi) && window == old(window) && hasWindow == old(hasWindow) && log == old(log)
      ensures ok ==>
        var rect := Win32.InitialRect(created.value.rect, width, height, currentDpi);
        var style := if resizable then created.value.style else Win32.ClearBits(created.value.style, Win32.FixedStyleMask);
        && hasWindow && dpi == currentDpi
        && window == Win32.WindowAttrs(style, created.value.exStyle, rect)
        && log == old(log) + [CreateWindow(Some(newTitle), width, height), SetWindowPos(rect)]
                 + (if resizable then [] else [SetStyle(style)])
    {
      if !moduleOk {
        return false;
      }
      title := newTitle;
      if !classOk || created.None? {
        return false;
      }
      var w := created.value;
      dpi := currentDpi;
      var rect := Win32.InitialRect(w.rect, width, height, currentDpi);
      var style := if resizable then w.style else Win32.ClearBits(w.style, Win32.FixedStyleMask);
      window := Win32.WindowAttrs(style, w.exStyle, rect);
      log := log + [CreateWindow(Some(newTitle), width, height), SetWindowPos(rect)] + (if resizable then [] else [SetStyle(style)]);
      hasWindow := true;
      ok := true;
    }

    /** `do_register_callback`: the new callback is swapped in; the old one is handed back to be destroyed. */
    method DoRegisterCallback(cb: Option<CallbackId>) returns (dropped: Option<CallbackId>)
      modifies this`callback
      ensures callback == cb && dropped == old(callback)
    {
      dropped := callback;
      callback := cb;
    }

    /** `do_set_window_title`: the title is stored, in every state; the window is not told. */
    method DoSetWindowTitle(t: string)
      modifies this`title
      ensures title == t
    {
      title := t;
    }

    /**
      `do_set_window_fullscreen`: nothing happens when the flag already has the asked
      value. Otherwise the flag is set and the geometry step runs: entering saves the
      window's style, extended style and rectangle, strips the decoration bits and
      covers `monitor`; leaving writes the saved values back.
     */
    method DoSetWindowFullscreen(on: bool, monitor: Rect)
      modifies this`fullscreen, this`saved, this`window, this`inFullscreen, this`log
      ensures fullscreen == on
      ensures old(fullscreen) == on ==>
        saved == old(saved) && window == old(window) && inFullscreen == old(inFullscreen) && log == old(log)
      ensures old(fullscreen) != on && on ==>
        var step := Win32.EnterFullscreen(old(window), monitor);
        saved == step.saved && window == step.window && inFullscreen && log == old(log) + step.ops
      ensures old(fullscreen) != on && !on ==>
        var step := Win32.LeaveFullscreen(old(saved));
        saved == old(saved) && window == step.window && !inFullscreen && log == old(log) + step.ops
    {
      if fullscreen == on {
        return;
      }
      fullscreen := on;
      var step := if on then Win32.EnterFullscreen(window, monitor) else Win32.LeaveFullscreen(saved);
      saved := step.saved;
      window := step.window;
      inFullscreen := on;
      log := log + step.ops;
    }

    /**
      `do_redirect_to`: before the web view is ready the URL is kept for the bring-up
      and false is returned, with nothing loaded. When ready the URL is loaded and the
      result is whether WebView2 accepted it (`ok`); the kept URL is not touched.
     */
    method DoRedirectTo(url: string, ok: bool) returns (r: bool)
      modifies this`pendingUrl, this`log
      ensures !isReady ==> !r && pendingUrl == url && log == old(log)
      ensures isReady ==> r == ok && pendingUrl == old(pendingUrl) && log == old(log) + [Native.Navigate(url)]
    {
      if !isReady {
        pendingUrl := url;
        return false;
      }
      log := log + [Native.Navigate(url)];
      r := ok;
    }

    /** `do_eval`: the script is submitted to the attached web view; its completion is not waited for. */
    method DoEval(code: string)
      requires Valid() && stage == Attached
      modifies this`log
      ensures log == old(log) + [RunScript(code)]
    {
      log := log + [RunScript(code)];
    }

    /** `do_preload`: the fragment is appended to the script buffer, wrapped in an arrow function that is called at once. */
    method DoPreload(code: string)
      modifies this`preload
      ensures preload == Script.Inject(old(preload), code)
      ensures |old(preload)| <= |preload| && preload[..|old(preload)|] == old(preload)
    {
      Script.InjectAllKeepsPrefix(preload, [code]);
      assert Script.InjectAll(preload, [code]) == Script.Inject(preload, code) by {
        assert [code][1..] == [];
      }
      preload := preload + Script.Wrap(code);
    }

    /**
      `do_run`: shows the window, then initialises COM (`coOk`) and asks WebView2 for an
      environment in the user-data folder as written, `EnvironmentPath` (`envOk`); COM is
      released again if that request is refused. The result says whether the request is on its way.
     */
    method DoRun(coOk: bool, envOk: bool, tempDir: string, appData: Option<string>, exe: string) returns (r: bool)
      requires Valid() && stage == Idle
      modifies this`stage, this`log
      ensures Valid()
      ensures log == old(log) + [ShowWindow] + ServiceStartOps(coOk, envOk, EnvironmentPath(tempEnvironment, tempDir, appData, exe))
      ensures r == (coOk && envOk)
      ensures stage == (if r then EnvironmentRequested else Idle)
    {
      var path := EnvironmentPath(tempEnvironment, tempDir, appData, exe);
      log := log + [ShowWindow] + ServiceStartOps(coOk, envOk, path);
      r := coOk && envOk;
      if r {
        stage := EnvironmentRequested;
      }
    }

    /**
      The environment-created handler: when the Edge runtime is missing (`edgeMissing`)
      the error is reported and the bring-up stops; otherwise a controller is requested.
     */
    method OnEnvironmentCreated(edgeMissing: bool)
      requires Valid() && stage == EnvironmentRequested
      modifies this`stage, this`log
      ensures Valid()
      ensures edgeMissing ==> stage == Idle && log == old(log)
      ensures !edgeMissing ==> stage == ControllerRequested && log == old(log) + [CreateController]
    {
      if edgeMissing {
        stage := Idle;
      } else {
        log := log + [CreateController];
        stage := ControllerRequested;
      }
    }

    /**
      The controller-created handler. A failure (`failed`) is returned to WebView2 and
      the web view is not ready. On success the web view is attached (developer tools if
      asked, sized to the client area `client`, the script buffer run at document start)
      and becomes ready; a set fullscreen flag is cleared and set again so that the
      window really enters fullscreen on `monitor`, once; then the kept URL is loaded.
     */
    method OnControllerCreated(failed: bool, client: Rect, monitor: Rect, navigateOk: bool)
      requires Valid() && stage == ControllerRequested
      modifies this`isReady, this`stage, this`fullscreen, this`saved, this`window, this`inFullscreen,
               this`pendingUrl, this`log
      ensures Valid()
      ensures failed ==> stage == Idle && !isReady && log == old(log) && fullscreen == old(fullscreen)
      ensures failed ==> saved == old(saved) && window == old(window)
      ensures !failed ==>
        && isReady && stage == Attached && fullscreen == old(fullscreen) && inFullscreen == old(fullscreen)
        && log == old(log) + BringUpOps(devTools, preload, client, old(fullscreen), old(window), monitor, pendingUrl)
        && (old(fullscreen) ==>
              saved == Win32.EnterFullscreen(old(window), monitor).saved && window == Win32.EnterFullscreen(old(window), monitor).window)
        && (!old(fullscreen) ==> saved == old(saved) && window == old(window))
        && LastSet(log, TitleAspect) == LastSet(old(log), TitleAspect)
        && LastSet(log, PageAspect) == Some(Native.Navigate(pendingUrl))
      ensures pendingUrl == old(pendingUrl)
    {
      if failed {
        stage := Idle;
      } else {
        BringUp(client, monitor, navigateOk);
      }
    }

    /** The successful controller-created handler. */
    method BringUp(client: Rect, monitor: Rect, navigateOk: bool)
      requires Valid() && stage == ControllerRequested
      modifies this`isReady, this`stage, this`fullscreen, this`saved, this`window, this`inFullscreen,
               this`pendingUrl, this`log
      ensures Valid()
      ensures isReady && stage == Attached && fullscreen == old(fullscreen) && inFullscreen == old(fullscreen)
      ensures pendingUrl == old(pendingUrl)
      ensures log == old(log) + BringUpOps(devTools, preload, client, old(fullscreen), old(window), monitor, pendingUrl)
      ensures old(fullscreen) ==>
        saved == Win32.EnterFullscreen(old(window), monitor).saved && window == Win32.EnterFullscreen(old(window), monitor).window
      ensures !old(fullscreen) ==> saved == old(saved) && window == old(window)
      ensures LastSet(log, TitleAspect) == LastSet(old(log), TitleAspect)
      ensures LastSet(log, PageAspect) == Some(Native.Navigate(pendingUrl))
    {
      ghost var log0 := log;
      ghost var window0 := window;
      ghost var fullscreen0 := fullscreen;
      log := log + ControllerSetupOps(devTools, preload, client);
      isReady := true;
      stage := Attached;
      Replay(monitor, navigateOk);
      AppendThree(log0, ControllerSetupOps(devTools, preload, client),
        FullscreenReplayOps(fullscreen0, window0, monitor), [Native.Navigate(pendingUrl)]);
      BringUpLatest(log0, devTools, preload, client, fullscreen0, window0, monitor, pendingUrl);
    }

    /** The replay once ready: fullscreen for a set flag, then the kept URL. */
    method Replay(monitor: Rect, navigateOk: bool)
      requires isReady && stage == Attached && (inFullscreen ==> fullscreen)
      modifies this`fullscreen, this`saved, this`window, this`inFullscreen, this`pendingUrl, this`log
      ensures Valid() && fullscreen == old(fullscreen) && inFullscreen == old(fullscreen)
      ensures pendingUrl == old(pendingUrl)
      ensures log == old(log) + FullscreenReplayOps(old(fullscreen), old(window), monitor) + [Native.Navigate(pendingUrl)]
      ensures old(fullscreen) ==>
        saved == Win32.EnterFullscreen(old(window), monitor).saved && window == Win32.EnterFullscreen(old(window), monitor).window
      ensures !old(fullscreen) ==> saved == old(saved) && window == old(window)
    {
      if fullscreen {
        fullscreen := false;
        DoSetWindowFullscreen(true, monitor);
      } else {
        assert !inFullscreen;
      }
      var _ := DoRedirectTo(pendingUrl, navigateOk);
    }

    /** `WM_SIZE`: the web view follows the client area `client`, but only once it is ready. */
    method OnSize(client: Rect)
      modifies this`log
      ensures hasWindow && isReady ==> log == old(log) + [SetControllerBounds(client)]
      ensures !(hasWindow && isReady) ==> log == old(log)
    {
      if hasWindow && isReady {
        log := log + [SetControllerBounds(client)];
      }
    }

    /**
      `set_dpi`: the new DPI is stored. While the fullscreen flag is set the saved
      rectangle is rescaled from the old DPI to the new one and the window is left alone;
      otherwise the window is moved to `suggested` and the snapshot is kept.
     */
    method SetDpi(newDpi: int, suggested: Rect)
      modifies this`dpi, this`saved, this`window, this`log
      ensures dpi == newDpi
      ensures var step := Win32.DpiChanged(fullscreen, old(saved), old(window), newDpi, old(dpi), suggested);
        saved == step.saved && window == step.window && log == old(log) + step.ops
    {
      var oldDpi := dpi;
      dpi := newDpi;
      var step := Win32.DpiChanged(fullscreen, saved, window, newDpi, oldDpi, suggested);
      saved := step.saved;
      window := step.window;
      log := log + step.ops;
    }

    /**
      The web-message handler: with a callback registered the message is read
      (`readOk`) and handed to it; a failed read is returned to WebView2. Without a
      callback the message is dropped.
     */
    method OnWebMessage(message: string, readOk: bool)
      requires Valid() && stage == Attached
      modifies this`log
      ensures callback.Some? && readOk ==> log == old(log) + [DeliverMessage(callback.value, message)]
      ensures callback.None? || !readOk ==> log == old(log)
    {
      if callback.Some? && readOk {
        log := log + [DeliverMessage(callback.value, message)];
      }
    }

    /** `do_is_running`: the loop goes on while `GetMessage`'s result is non-zero (-1, an error, included). */
    method DoIsRunning(getMessage: int) returns (alive: bool)
      ensures alive <==> getMessage != 0
    {
      alive := getMessage != 0;
    }

    /** `do_shutdown`, also reached from `WM_DESTROY`: posts `WM_QUIT` and releases COM. */
    method DoShutdown()
      modifies this`log
      ensures log == old(log) + [PostQuit, CoUninitialize]
    {
      log := log + [PostQuit, CoUninitialize];
    }
  }

  /**
    Starting fullscreen: the flag given to `do_initialize` leaves the window as it is,
    and the bring-up makes it fullscreen exactly once. Leaving fullscreen afterwards
    gives back the window as it was created.
   */
  method StartFullscreenThenLeave(v: WebViewWindows, client: Rect, monitor: Rect)
    requires v.Valid() && v.stage == ControllerRequested && v.fullscreen
    modifies v
    ensures v.Valid() && v.isReady && !v.fullscreen && !v.inFullscreen
    ensures v.window == old(v.window)
  {
    v.OnControllerCreated(false, client, monitor, true);
    v.DoSetWindowFullscreen(false, monitor);
    Win32.EnterLeaveIsIdentity(old(v.window), monitor);
  }

  /**
    Redirecting twice before the web view is ready loads nothing and keeps the second
    URL, which the bring-up then loads.
   */
  method RedirectsBeforeReady(v: WebViewWindows, u1: string, u2: string, client: Rect, monitor: Rect)
    requires v.Valid() && v.stage == ControllerRequested
    modifies v
    ensures LastSet(v.log, PageAspect) == Some(Native.Navigate(u2))
    ensures LastSet(v.log, TitleAspect) == LastSet(old(v.log), TitleAspect)
  {
    var r1 := v.DoRedirectTo(u1, true);
    var r2 := v.DoRedirectTo(u2, true);
    v.OnControllerCreated(false, client, monitor, true);
  }
}
