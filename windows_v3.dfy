/**
  The WebView2 adapter of the third generation (`webview/src/web_view_windows_v3.cpp`).
  It owns a v3 `WebViewBase` and adds what the Win32 side keeps: the window's DPI, the
  snapshot taken on entering fullscreen, the window's style and rectangle, and how far
  the asynchronous bring-up has got. The constructor creates the window;
  `do_service_start` asks WebView2 for an environment, whose completion asks for a
  controller, whose completion attaches the web view and makes the service run. Those
  two completions are the event methods `OnEnvironmentCreated` and
  `OnControllerCreated`; window messages are `OnSize`, `OnDpiChanged` and `OnDestroy`.
  Win32 and WebView2 calls are entries of the base's log.
 */
module WindowsV3 {

  import opened Native
  import Script
  import Win32
  import Profile
  import BaseV3
  import opened WebView2

  /** The folder the WebView2 environment keeps its user data in. */
  function EnvironmentPath(temp: bool, tempDir: string, appData: Option<string>, exe: string): string {
    Profile.EnvironmentFolder(temp, tempDir, Profile.AppDataBaseV3(appData), exe)
  }

  /**
    The user-data folder is the temporary directory joined with the executable's stem
    when a temporary environment is asked for, and `APPDATA` joined with it otherwise.
   */
  lemma EnvironmentPathChoice(tempDir: string, appData: string, exe: string)
    requires Profile.WellFormedFolder(tempDir) && Profile.NulFree(exe)
    requires Profile.WellFormedFolder(appData) && |appData| < Profile.MaxPath
    ensures EnvironmentPath(true, tempDir, Some(appData), exe) == tempDir + "\\" + Profile.Stem(exe)
    ensures EnvironmentPath(false, tempDir, Some(appData), exe) == appData + "\\" + Profile.Stem(exe)
  {
    Profile.EnvironmentFolderTemp(tempDir, Profile.AppDataBaseV3(Some(appData)), exe);
    Profile.EnvironmentFolderV3(tempDir, appData, exe);
  }

  class WebViewWindows {
    /** The v3 base this adapter implements the hooks of. */
    const base: BaseV3.WebViewBase
    /** `is_temp_environment_` */
    const tempEnvironment: bool
    /** `dpi_`: 0 until the window exists. */
    var dpi: int
    /** `window_info_`: zero until fullscreen is first entered. */
    var saved: Win32.SavedWindowInfo
    /** The style, extended style and rectangle of the native window, as this adapter has set them. */
    var window: Win32.WindowAttrs
    /** `window_ != nullptr`; the window also carries a pointer to this object from then on. */
    var hasWindow: bool
    var stage: Stage

    /**
      The window exists exactly when the constructor got past all three of its checks;
      the service runs exactly when the web view is attached, and a bring-up is under
      way only on an initialised service. Nothing in this adapter sets `Shutdown`.
     */
    ghost predicate Valid()
      reads this, base
    {
      && base.state != BaseV3.Shutdown
      && (hasWindow <==> base.state != BaseV3.Uninitialized)
      && (stage == Attached <==> base.state == BaseV3.Running)
      && (stage != Idle ==> base.state != BaseV3.Uninitialized)
    }

    /**
      The bridge script is put in the injection buffer first. Then the module handle
      (`moduleOk`), the window class (`classOk`) and the window (`created`, the style,
      extended style and rectangle the system gives it) must all be obtained; the first
      that fails leaves the service `Uninitialized` with nothing created. Otherwise the
      window is created with the construction title, its DPI (`currentDpi`) is read, it
      is resized to `MulDiv(size, dpi, 96)` at the place the system chose, a fixed window
      loses its resizing bits, and the state becomes `Initialized`.
     */
    constructor(width: int, height: int, title: string, fixed: bool, fullscreen: bool, devTools: bool,
                temp: bool, indexUrl: Option<string>, methodName: string,
                moduleOk: bool, classOk: bool, created: Option<Win32.WindowAttrs>, currentDpi: int)
      ensures Valid() && fresh(base) && stage == Idle
      ensures base.width == width && base.height == height && base.title == title
      ensures base.fixed == fixed && base.fullscreen == fullscreen && base.devTools == devTools
      ensures base.url == Script.IndexUrl(indexUrl, Script.DefaultIndexUrlV3()) && base.callback == None
      ensures base.injected == Script.WindowsBridge(methodName) && tempEnvironment == temp
      ensures saved == Win32.SavedWindowInfo(0, 0, Rect(0, 0, 0, 0))
      ensures hasWindow <==> moduleOk && classOk && created.Some?
      ensures !hasWindow ==> base.state == BaseV3.Uninitialized && dpi == 0 && base.log == []
      ensures hasWindow ==>
        var rect := Win32.InitialRect(created.value.rect, width, height, currentDpi);
        var style := if fixed then Win32.ClearBits(created.value.style, Win32.FixedStyleMask) else created.value.style;
        && base.state == BaseV3.Initialized && dpi == currentDpi
        && window == Win32.WindowAttrs(style, created.value.exStyle, rect)
        && base.log == [CreateWindow(Some(title), width, height), SetWindowPos(rect)] + (if fixed then [SetStyle(style)] else [])
    {
      var b := new BaseV3.WebViewBase(width, height, title, fixed, fullscreen, devTools, indexUrl);
      b.injected := Script.WindowsBridge(methodName);
      var ok := moduleOk && classOk && created.Some?;
      if ok {
        var w := created.value;
        var rect := Win32.InitialRect(w.rect, width, height, currentDpi);
        var style := if fixed then Win32.ClearBits(w.style, Win32.FixedStyleMask) else w.style;
        window := Win32.WindowAttrs(style, w.exStyle, rect);
        b.log := [CreateWindow(Some(title), width, height), SetWindowPos(rect)] + (if fixed then [SetStyle(style)] else []);
        b.state := BaseV3.Initialized;
      } else {
        window := Win32.WindowAttrs(0, 0, Rect(0, 0, 0, 0));
      }
      base := b;
      tempEnvironment := temp;
      dpi := if ok then currentDpi else 0;
      saved := Win32.SavedWindowInfo(0, 0, Rect(0, 0, 0, 0));
      hasWindow := ok;
      stage := Idle;
    }

    /** The window title, through the base: buffered until running, then `SetWindowText`. */
    method SetWindowTitle(t: string)
      modifies base`title, base`log
      ensures old(base.state) != BaseV3.Running ==> base.title == t && base.log == old(base.log)
      ensures old(base.state) == BaseV3.Running ==> base.title == old(base.title) && base.log == old(base.log) + [SetTitle(t)]
    {
      base.SetWindowTitle(t);
    }

    /**
      `do_set_window_fullscreen`. Entering saves the window's style, extended style and
      rectangle, strips the decoration bits and covers `monitor`, the monitor the window
      is on. Leaving writes the saved values back and keeps the snapshot. The base's
      fullscreen flag is not touched.
     */
    method DoSetWindowFullscreen(on: bool, monitor: Rect)
      modifies this`saved, this`window, base`log
      ensures on ==>
        var step := Win32.EnterFullscreen(old(window), monitor);
        saved == step.saved && window == step.window && base.log == old(base.log) + step.ops
      ensures !on ==>
        var step := Win32.LeaveFullscreen(old(saved));
        saved == old(saved) && window == step.window && base.log == old(base.log) + step.ops
    {
      var step := if on then Win32.EnterFullscreen(window, monitor) else Win32.LeaveFullscreen(saved);
      saved := step.saved;
      window := step.window;
      base.log := base.log + step.ops;
    }

    /** `do_navigate`: one load of the URL; a failure reported by WebView2 (`ok` false) is `NavigateFailed`. */
    method DoNavigate(target: string, ok: bool) returns (r: BaseV3.NavigateResult)
      modifies base`log
      ensures base.log == old(base.log) + [Native.Navigate(target)]
      ensures r == (if ok then BaseV3.NavigateResult.Success else BaseV3.NavigateFailed)
    {
      base.log := base.log + [Native.Navigate(target)];
      r := if ok then BaseV3.NavigateResult.Success else BaseV3.NavigateFailed;
    }

    /**
      The page URL, through the base: buffered and refused until running; then loaded,
      with WebView2's failure mapped to `NavigateFailed`.
     */
    method Navigate(target: string, ok: bool) returns (r: BaseV3.NavigateResult)
      modifies base`url, base`log
      ensures old(base.state) != BaseV3.Running ==> r == BaseV3.ServiceNotReadyYet && base.url == target && base.log == old(base.log)
      ensures old(base.state) == BaseV3.Running ==>
        && r == (if ok then BaseV3.NavigateResult.Success else BaseV3.NavigateFailed)
        && base.url == old(base.url) && base.log == old(base.log) + [Native.Navigate(target)]
    {
      r := base.Navigate(target, if ok then BaseV3.NavigateResult.Success else BaseV3.NavigateFailed);
    }

    /** `eval` through the base to `do_eval`: the script is submitted; its completion is not waited for. */
    method Eval(code: string)
      requires Valid() && stage == Attached
      modifies base`log
      ensures base.log == old(base.log) + [RunScript(code)]
    {
      base.log := base.log + [RunScript(code)];
    }

    /**
      Must be called on an initialised service. Shows the window, then initialises COM
      (`coOk`) and asks WebView2 for an environment in the user-data folder (`envOk`);
      COM is released again if that request is refused. Either failure reports
      `ServiceInitializeFailed`; otherwise `Success` is reported while the service is
      still `Initialized`, with the environment on its way.
     */
    method DoServiceStart(coOk: bool, envOk: bool, tempDir: string, appData: Option<string>, exe: string)
        returns (r: BaseV3.ServiceStartResult)
      requires Valid() && base.state == BaseV3.Initialized
      modifies this`stage, base`log
      ensures Valid() && base.state == BaseV3.Initialized
      ensures base.log == old(base.log) + [ShowWindow]
                          + ServiceStartOps(coOk, envOk, EnvironmentPath(tempEnvironment, tempDir, appData, exe))
      ensures r == (if coOk && envOk then BaseV3.ServiceStartResult.Success else BaseV3.ServiceInitializeFailed)
      ensures stage == (if coOk && envOk then EnvironmentRequested else old(stage))
    {
      var path := EnvironmentPath(tempEnvironment, tempDir, appData, exe);
      RequestEnvironment(coOk, envOk, path);
      if coOk && envOk {
        stage := EnvironmentRequested;
        r := BaseV3.ServiceStartResult.Success;
      } else {
        r := BaseV3.ServiceInitializeFailed;
      }
    }

    /** The native calls of `do_service_start` for the user-data folder `path`. */
    method RequestEnvironment(coOk: bool, envOk: bool, path: string)
      modifies base`log
      ensures base.log == old(base.log) + [ShowWindow] + ServiceStartOps(coOk, envOk, path)
    {
      base.log := base.log + [ShowWindow] + ServiceStartOps(coOk, envOk, path);
    }

    /**
      The environment-created handler: when the Edge runtime is missing (`edgeMissing`)
      the error is reported and the bring-up stops; otherwise a controller is requested
      for the window.
     */
    method OnEnvironmentCreated(edgeMissing: bool)
      requires Valid() && stage == EnvironmentRequested
      modifies this`stage, base`log
      ensures Valid() && unchanged(base`state)
      ensures edgeMissing ==> stage == Idle && base.log == old(base.log)
      ensures !edgeMissing ==> stage == ControllerRequested && base.log == old(base.log) + [CreateController]
    {
      if edgeMissing {
        stage := Idle;
      } else {
        base.log := base.log + [CreateController];
        stage := ControllerRequested;
      }
    }

    /** The first part of a successful controller-created handler, before the service runs. */
    method AttachController(client: Rect)
      requires Valid() && stage == ControllerRequested
      modifies base`log
      ensures Valid()
      ensures base.log == old(base.log) + ControllerSetupOps(base.devTools, base.injected, client)
    {
      base.log := base.log + ControllerSetupOps(base.devTools, base.injected, client);
    }

    /**
      The controller-created handler. A failure (`failed`) is returned to WebView2 and
      the service does not run. On success the web view is attached (developer tools if
      asked, sized to the client area `client`, the injection buffer as document-start
      script), the state becomes `Running`, fullscreen is entered on `monitor` when the
      fullscreen flag is set, and the stored URL is loaded; the load's result is
      discarded. The title is not sent again: the window keeps the title it was created
      with, or the last one set while running.
     */
    method OnControllerCreated(failed: bool, client: Rect, monitor: Rect, navigateOk: bool)
      requires Valid() && stage == ControllerRequested
      modifies this`stage, this`saved, this`window, base`state, base`log
      ensures Valid()
      ensures failed ==> stage == Idle && base.state == old(base.state) && base.log == old(base.log)
      ensures failed ==> saved == old(saved) && window == old(window)
      ensures !failed ==>
        && stage == Attached && base.state == BaseV3.Running
        && base.log == old(base.log) + BringUpOps(base.devTools, base.injected, client, base.fullscreen, old(window), monitor, base.url)
        && (base.fullscreen ==>
              saved == Win32.EnterFullscreen(old(window), monitor).saved && window == Win32.EnterFullscreen(old(window), monitor).window)
        && (!base.fullscreen ==> saved == old(saved) && window == old(window))
        && LastSet(base.log, TitleAspect) == LastSet(old(base.log), TitleAspect)
        && LastSet(base.log, PageAspect) == Some(Native.Navigate(base.url))
    {
      if failed {
        stage := Idle;
      } else {
        BringUp(client, monitor, navigateOk);
      }
    }

    /** The successful controller-created handler. */
    method BringUp(client: Rect, monitor: Rect, navigateOk: bool)
      requires Valid() && stage == ControllerRequested
      modifies this`stage, this`saved, this`window, base`state, base`log
      ensures Valid()
      ensures stage == Attached && base.state == BaseV3.Running
      ensures base.log == old(base.log) + BringUpOps(base.devTools, base.injected, client, base.fullscreen, old(window), monitor, base.url)
      ensures base.fullscreen ==>
        saved == Win32.EnterFullscreen(old(window), monitor).saved && window == Win32.EnterFullscreen(old(window), monitor).window
      ensures !base.fullscreen ==> saved == old(saved) && window == old(window)
      ensures LastSet(base.log, TitleAspect) == LastSet(old(base.log), TitleAspect)
      ensures LastSet(base.log, PageAspect) == Some(Native.Navigate(base.url))
    {
      ghost var log0 := base.log;
      ghost var window0 := window;
      AttachController(client);
      stage := Attached;
      base.state := BaseV3.Running;
      Replay(monitor, navigateOk);
      AppendThree(log0, ControllerSetupOps(base.devTools, base.injected, client),
        FullscreenReplayOps(base.fullscreen, window0, monitor), [Native.Navigate(base.url)]);
      BringUpLatest(log0, base.devTools, base.injected, client, base.fullscreen, window0, monitor, base.url);
    }

    /** The replay once running: fullscreen when the flag is set, then the stored URL. */
    method Replay(monitor: Rect, navigateOk: bool)
      modifies this`saved, this`window, base`log
      ensures base.log == old(base.log) + FullscreenReplayOps(base.fullscreen, old(window), monitor) + [Native.Navigate(base.url)]
      ensures base.fullscreen ==>
        saved == Win32.EnterFullscreen(old(window), monitor).saved && window == Win32.EnterFullscreen(old(window), monitor).window
      ensures !base.fullscreen ==> saved == old(saved) && window == old(window)
    {
      if base.fullscreen {
        DoSetWindowFullscreen(true, monitor);
      }
      var _ := DoNavigate(base.url, navigateOk);
    }

    /** `WM_SIZE`: the web view follows the client area `client`, but only while the service runs. */
    method OnSize(client: Rect)
      requires Valid()
      modifies base`log
      ensures base.state == BaseV3.Running ==> base.log == old(base.log) + [SetControllerBounds(client)]
      ensures base.state != BaseV3.Running ==> base.log == old(base.log)
    {
      if base.state == BaseV3.Running {
        base.log := base.log + [SetControllerBounds(client)];
      }
    }

    /**
      `set_dpi`: the new DPI is stored. While the fullscreen flag is set the saved
      rectangle is rescaled from the old DPI to the new one and the window is left alone;
      otherwise the window is moved to `suggested` and the snapshot is kept.
     */
    method SetDpi(newDpi: int, suggested: Rect)
      modifies this`dpi, this`saved, this`window, base`log
      ensures dpi == newDpi
      ensures var step := Win32.DpiChanged(base.fullscreen, old(saved), old(window), newDpi, old(dpi), suggested);
        saved == step.saved && window == step.window && base.log == old(base.log) + step.ops
    {
      var oldDpi := dpi;
      dpi := newDpi;
      var step := Win32.DpiChanged(base.fullscreen, saved, window, newDpi, oldDpi, suggested);
      saved := step.saved;
      window := step.window;
      base.log := base.log + step.ops;
    }

    /** `WM_DPICHANGED`, with the new DPI and the rectangle the system suggests. */
    method OnDpiChanged(newDpi: int, suggested: Rect)
      requires Valid() && hasWindow
      modifies this`dpi, this`saved, this`window, base`log
      ensures Valid() && dpi == newDpi
      ensures var step := Win32.DpiChanged(base.fullscreen, old(saved), old(window), newDpi, old(dpi), suggested);
        saved == step.saved && window == step.window && base.log == old(base.log) + step.ops
    {
      SetDpi(newDpi, suggested);
    }

    /**
      The web-message handler: with a callback registered the message is read
      (`readOk`) and handed to it; a failed read is returned to WebView2. Without a
      callback the message is dropped.
     */
    method OnWebMessage(message: string, readOk: bool)
      requires Valid() && stage == Attached
      modifies base`log
      ensures base.callback.Some? && readOk ==> base.log == old(base.log) + [DeliverMessage(base.callback.value, message)]
      ensures base.callback.None? || !readOk ==> base.log == old(base.log)
    {
      if base.callback.Some? && readOk {
        base.log := base.log + [DeliverMessage(base.callback.value, message)];
      }
    }

    /**
      `do_iteration`: one message from `GetMessage` (its result `getMessage`) is
      dispatched; the loop goes on while that result is non-zero, so an error (-1) keeps
      it going and only `WM_QUIT` (0) ends it.
     */
    method DoIteration(getMessage: int) returns (alive: bool)
      ensures alive <==> getMessage != 0
    {
      alive := getMessage != 0;
    }

    /** `do_shutdown`, also reached from `WM_DESTROY`: posts `WM_QUIT` and releases COM; the state is not changed. */
    method DoShutdown()
      requires Valid()
      modifies base`log
      ensures Valid() && unchanged(base`state)
      ensures base.log == old(base.log) + [PostQuit, CoUninitialize]
    {
      base.log := base.log + [PostQuit, CoUninitialize];
    }

    /** `WM_DESTROY`: the service is shut down once the window carries this object. */
    method OnDestroy()
      requires Valid()
      modifies base`log
      ensures Valid() && unchanged(base`state)
      ensures hasWindow ==> base.log == old(base.log) + [PostQuit, CoUninitialize]
      ensures !hasWindow ==> base.log == old(base.log)
    {
      if hasWindow {
        DoShutdown();
      }
    }
  }

  /**
    Entering and then leaving fullscreen, with no DPI change between, gives the window
    back its style, extended style and rectangle.
   */
  method FullscreenRoundTrip(v: WebViewWindows, monitor: Rect)
    modifies v`saved, v`window, v.base`log
    ensures v.window == old(v.window)
    ensures v.base.log == old(v.base.log) + Win32.EnterFullscreen(old(v.window), monitor).ops
                          + Win32.LeaveFullscreen(Win32.EnterFullscreen(old(v.window), monitor).saved).ops
  {
    v.DoSetWindowFullscreen(true, monitor);
    v.DoSetWindowFullscreen(false, monitor);
    Win32.EnterLeaveIsIdentity(old(v.window), monitor);
  }

  /**
    A title set before the service runs is kept by the base but never reaches the
    window: after the whole bring-up the only title the window was given is the one it
    was created with.
   */
  method TitleBeforeRunningIsNotShown(v: WebViewWindows, t: string, client: Rect, monitor: Rect)
    requires v.Valid() && v.stage == ControllerRequested
    requires LastSet(v.base.log, TitleAspect) == None
    modifies v`stage, v`saved, v`window, v.base`state, v.base`log, v.base`title
    ensures v.base.title == t && v.base.state == BaseV3.Running
    ensures LastSet(v.base.log, TitleAspect) == None
  {
    v.SetWindowTitle(t);
    v.OnControllerCreated(false, client, monitor, true);
  }
}
