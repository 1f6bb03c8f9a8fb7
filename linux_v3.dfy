/**
  The GTK/WebKit adapter of the third generation (`src/web_view_linux_v3.cpp`). It owns
  a v3 `WebViewBase` holding the settings, the buffered title and URL, the injection
  buffer and the service state, and adds the two flags of the `eval` protocol and the
  window handle. The window is built by the constructor, the web view by
  `do_service_start`. GTK and WebKit calls are entries of the base's log.
 */
module LinuxV3 {

  import opened Native
  import Script
  import Gtk
  import BaseV3

  /** What `do_service_start` adds to the window: developer tools if asked, then the document-start script. */
  function WebViewSetupOps(devTools: bool, injected: string): seq<Op> {
    (if devTools then [EnableDevTools] else []) + [AddDocumentStartScript(injected)]
  }

  /** What a `do_service_start` issues: build the web view, replay title, fullscreen, URL, show. */
  function StartOps(devTools: bool, injected: string, title: string, fullscreen: bool, url: string): seq<Op> {
    WebViewSetupOps(devTools, injected) + Gtk.ReplayOps(title, fullscreen, url) + [ShowWindow]
  }

  /**
    Starting the service on any log runs no script and leaves the buffered title,
    fullscreen flag and URL as the latest settings of their kind.
   */
  lemma StartLatest(log: seq<Op>, devTools: bool, injected: string, title: string, fullscreen: bool, url: string, a: Aspect)
    ensures NoScriptRuns(StartOps(devTools, injected, title, fullscreen, url))
    ensures LastSet(log + StartOps(devTools, injected, title, fullscreen, url), a)
         == Some(match a case TitleAspect => SetTitle(title) case FullscreenAspect => SetFullscreen(fullscreen) case PageAspect => Native.Navigate(url))
  {
    var setup := WebViewSetupOps(devTools, injected);
    var replay := Gtk.ReplayOps(title, fullscreen, url);
    var ops := StartOps(devTools, injected, title, fullscreen, url);
    LastSetSnoc(setup + replay, ShowWindow, a);
    LastSetConcat(setup, replay, a);
    Gtk.ReplayLatest(title, fullscreen, url, a);
    LastSetConcat(log, ops, a);
  }

  /** The three steps of `do_service_start` together make up `StartOps`, with its latest settings. */
  lemma StartLatestAll(log0: seq<Op>, devTools: bool, injected: string, title: string, fullscreen: bool, url: string)
    ensures var all := log0 + WebViewSetupOps(devTools, injected) + Gtk.ReplayOps(title, fullscreen, url) + [ShowWindow];
      && all == log0 + StartOps(devTools, injected, title, fullscreen, url)
      && LastSet(all, TitleAspect) == Some(SetTitle(title))
      && LastSet(all, FullscreenAspect) == Some(SetFullscreen(fullscreen))
      && LastSet(all, PageAspect) == Some(Native.Navigate(url))
  {
    var setup, replay := WebViewSetupOps(devTools, injected), Gtk.ReplayOps(title, fullscreen, url);
    assert log0 + setup + replay + [ShowWindow] == log0 + (setup + replay + [ShowWindow]);
    StartLatest(log0, devTools, injected, title, fullscreen, url, TitleAspect);
    StartLatest(log0, devTools, injected, title, fullscreen, url, FullscreenAspect);
    StartLatest(log0, devTools, injected, title, fullscreen, url, PageAspect);
  }

  class WebViewLinux {
    /** The v3 base this adapter implements the hooks of. */
    const base: BaseV3.WebViewBase
    /** `current_javascript_runnable_`: a page has finished loading. */
    var runnable: bool
    /** `current_javascript_running_`: a submitted script has not completed yet. */
    var running: bool
    /** `gtk_window_ != nullptr` */
    var hasWindow: bool

    /**
      Scripts run only on a loaded page, the runnable flag is backed by a load in the
      log, and an initialised or running service has its window.
     */
    ghost predicate Valid()
      reads this, base
    {
      && Gtk.ScriptsFollowLoad(base.log)
      && (runnable ==> LoadFinishedSignal in base.log)
      && (base.state == BaseV3.Initialized || base.state == BaseV3.Running ==> hasWindow)
    }

    /**
      The base is built with the given settings and the bridge script is put in the
      injection buffer first. When GTK initialises (`gtkOk`) the window is created with
      the requested size and the state becomes `Initialized`; otherwise the state stays
      `Uninitialized` and there is no window.
     */
    constructor(width: int, height: int, title: string, fixed: bool, fullscreen: bool, devTools: bool,
                indexUrl: Option<string>, methodName: string, gtkOk: bool)
      ensures Valid() && fresh(base)
      ensures base.width == width && base.height == height && base.title == title
      ensures base.fixed == fixed && base.fullscreen == fullscreen && base.devTools == devTools
      ensures base.url == Script.IndexUrl(indexUrl, Script.DefaultIndexUrlV3()) && base.callback == None
      ensures base.injected == Script.LinuxBridge(methodName)
      ensures !runnable && !running
      ensures gtkOk ==> base.state == BaseV3.Initialized && hasWindow && base.log == [CreateWindow(None, width, height)]
      ensures !gtkOk ==> base.state == BaseV3.Uninitialized && !hasWindow && base.log == []
    {
      var b := new BaseV3.WebViewBase(width, height, title, fixed, fullscreen, devTools, indexUrl);
      b.injected := Script.LinuxBridge(methodName);
      if gtkOk {
        b.log := b.log + [CreateWindow(None, width, height)];
        b.state := BaseV3.Initialized;
      }
      base := b;
      runnable := false;
      running := false;
      hasWindow := gtkOk;
      assert Gtk.ScriptsFollowLoad([CreateWindow(None, width, height)]) by {
        assert [CreateWindow(None, width, height)][..0] == [];
      }
    }

    /** The window title, through the base: buffered until running, then sent to the window. */
    method SetWindowTitle(t: string)
      requires Valid()
      modifies base`title, base`log
      ensures Valid()
      ensures old(base.state) != BaseV3.Running ==> base.title == t && base.log == old(base.log)
      ensures old(base.state) == BaseV3.Running ==> base.title == old(base.title) && base.log == old(base.log) + [SetTitle(t)]
    {
      Gtk.AppendKeepsValid(base.log, runnable, [SetTitle(t)]);
      base.SetWindowTitle(t);
    }

    /** `do_set_window_fullscreen`: (un)fullscreens the window; the stored flag is not touched. */
    method DoSetWindowFullscreen(on: bool)
      requires Valid() && hasWindow
      modifies base`log
      ensures Valid()
      ensures base.log == old(base.log) + [SetFullscreen(on)]
    {
      Gtk.AppendKeepsValid(base.log, runnable, [SetFullscreen(on)]);
      base.log := base.log + [SetFullscreen(on)];
    }

    /**
      The page URL, through the base: buffered and refused until running; then loaded,
      and `do_navigate` always reports success.
     */
    method Navigate(target: string) returns (r: BaseV3.NavigateResult)
      requires Valid()
      modifies base`url, base`log
      ensures Valid()
      ensures old(base.state) != BaseV3.Running ==> r == BaseV3.ServiceNotReadyYet && base.url == target && base.log == old(base.log)
      ensures old(base.state) == BaseV3.Running ==>
        r == BaseV3.NavigateResult.Success && base.url == old(base.url) && base.log == old(base.log) + [Native.Navigate(target)]
    {
      Gtk.AppendKeepsValid(base.log, runnable, [Native.Navigate(target)]);
      r := base.Navigate(target, BaseV3.NavigateResult.Success);
    }

    /** The first step of `do_service_start`: the web view is built on the window and the service runs. */
    method BuildWebView()
      requires Valid() && base.state == BaseV3.Initialized
      modifies base`state, base`log
      ensures Valid() && base.state == BaseV3.Running
      ensures base.log == old(base.log) + WebViewSetupOps(base.devTools, base.injected)
    {
      var setup := WebViewSetupOps(base.devTools, base.injected);
      Gtk.AppendKeepsValid(base.log, runnable, setup);
      base.log := base.log + setup;
      base.state := BaseV3.Running;
    }

    /** The replay step of `do_service_start`, once running: title, fullscreen flag, URL. */
    method Replay()
      requires Valid() && base.state == BaseV3.Running
      modifies base`title, base`url, base`log
      ensures Valid()
      ensures base.title == old(base.title) && base.url == old(base.url)
      ensures base.log == old(base.log) + Gtk.ReplayOps(base.title, base.fullscreen, base.url)
    {
      SetWindowTitle(base.title);
      DoSetWindowFullscreen(base.fullscreen);
      var _ := Navigate(base.url);
      assert base.log == old(base.log) + [SetTitle(base.title)] + [SetFullscreen(base.fullscreen)] + [Native.Navigate(base.url)];
    }

    /**
      Must be called on an initialised service. Builds the web view on the window (with
      developer tools if asked, and the injection buffer as document-start script),
      becomes `Running`, replays the stored title, fullscreen flag and URL, shows the
      window and reports success. Afterwards the window shows the stored title and
      fullscreen setting and the page loads the stored URL.
     */
    method DoServiceStart() returns (r: BaseV3.ServiceStartResult)
      requires Valid() && base.state == BaseV3.Initialized
      modifies base`state, base`title, base`url, base`log
      ensures Valid()
      ensures r == BaseV3.ServiceStartResult.Success && base.state == BaseV3.Running
      ensures base.title == old(base.title) && base.url == old(base.url)
      ensures base.log == old(base.log) + StartOps(base.devTools, base.injected, base.title, base.fullscreen, base.url)
      ensures LastSet(base.log, TitleAspect) == Some(SetTitle(base.title))
      ensures LastSet(base.log, FullscreenAspect) == Some(SetFullscreen(base.fullscreen))
      ensures LastSet(base.log, PageAspect) == Some(Native.Navigate(base.url))
    {
      ghost var log0 := base.log;
      BuildWebView();
      Replay();
      Gtk.AppendKeepsValid(base.log, runnable, [ShowWindow]);
      base.log := base.log + [ShowWindow];
      StartLatestAll(log0, base.devTools, base.injected, base.title, base.fullscreen, base.url);
      r := BaseV3.ServiceStartResult.Success;
    }

    /** `do_shutdown`, also reached from the window's "destroy" signal; calling it again changes nothing. */
    method DoShutdown()
      requires Valid()
      modifies base`state
      ensures Valid()
      ensures base.state == BaseV3.Shutdown
    {
      base.state := BaseV3.Shutdown;
    }

    /**
      One event dispatched by the main loop: load-finished makes scripts runnable, a
      script completion clears `running`, a destroyed window shuts the service down, a
      page message reaches the registered callback if there is one, and a fullscreen
      request from the page reaches the window exactly when the window is fixed, as the
      handlers are written (see `Gtk.FullscreenRequestAsWritten`).
     */
    method OnEvent(e: Gtk.Event)
      requires Valid()
      modifies this`runnable, this`running, base`state, base`log
      ensures Valid()
      ensures runnable == (old(runnable) || e == Gtk.LoadDone)
      ensures running == (old(running) && e != Gtk.ScriptFinished)
      ensures base.state == (if e == Gtk.Destroyed then BaseV3.Shutdown else old(base.state))
      ensures base.log == old(base.log) + Gtk.EventOps(e, base.callback, base.fixed)
    {
      ghost var ops := Gtk.EventOps(e, base.callback, base.fixed);
      Gtk.AppendKeepsValid(base.log, runnable, ops);
      base.log := base.log + ops;
      match e {
        case LoadChanged(kind) =>
          if kind == Gtk.LoadFinished {
            runnable := true;
          }
        case ScriptFinished =>
          running := false;
        case Destroyed =>
          DoShutdown();
        case _ =>
      }
    }

    /** `gtk_main_iteration_do(true)` dispatches one event; the service is alive until shut down. */
    method DoIteration(e: Gtk.Event) returns (alive: bool)
      requires Valid()
      modifies this`runnable, this`running, base`state, base`log
      ensures Valid()
      ensures runnable == (old(runnable) || e == Gtk.LoadDone)
      ensures running == (old(running) && e != Gtk.ScriptFinished)
      ensures base.state == (if e == Gtk.Destroyed then BaseV3.Shutdown else old(base.state))
      ensures base.log == old(base.log) + Gtk.EventOps(e, base.callback, base.fixed)
      ensures alive <==> base.state != BaseV3.Shutdown
    {
      OnEvent(e);
      alive := base.state != BaseV3.Shutdown;
    }

    /**
      The effect of the main loop dispatching the first `k` events of `es`, starting from
      the log and flags `log0`, `runnable0`, `running0`, `state0`.
     */
    ghost predicate Delivered(es: seq<Gtk.Event>, k: nat, log0: seq<Op>, runnable0: bool, running0: bool,
                              state0: BaseV3.ServiceStateResult)
      requires k <= |es|
      reads this, base
    {
      && base.log == log0 + Gtk.EventsOps(es[..k], base.callback, base.fixed)
      && runnable == (runnable0 || Gtk.LoadDone in es[..k])
      && running == (running0 && Gtk.ScriptFinished !in es[..k])
      && base.state == (if Gtk.Destroyed in es[..k] then BaseV3.Shutdown else state0)
    }

    /** One iteration of a spin loop: the next event of `es` is dispatched. */
    method DeliverNext(es: seq<Gtk.Event>, k: nat, ghost log0: seq<Op>, ghost runnable0: bool, ghost running0: bool,
                       ghost state0: BaseV3.ServiceStateResult)
      requires Valid() && k < |es| && Delivered(es, k, log0, runnable0, running0, state0)
      modifies this`runnable, this`running, base`state, base`log
      ensures Valid() && Delivered(es, k + 1, log0, runnable0, running0, state0)
    {
      Gtk.InStep(es, k, Gtk.LoadDone);
      Gtk.InStep(es, k, Gtk.ScriptFinished);
      Gtk.InStep(es, k, Gtk.Destroyed);
      Gtk.EventsOpsStep(es, k, base.callback, base.fixed);
      OnEvent(es[k]);
    }

    /** `while (!current_javascript_runnable_) g_main_context_iteration(nullptr, TRUE);` */
    method SpinUntilRunnable(pending: seq<Gtk.Event>) returns (k: nat)
      requires Valid() && Gtk.LoadWait(runnable, pending).Some?
      modifies this`runnable, this`running, base`state, base`log
      ensures Valid() && runnable
      ensures Gtk.LoadWait(old(runnable), pending) == Some(k)
      ensures base.log == old(base.log) + Gtk.EventsOps(pending[..k], base.callback, base.fixed)
      ensures running == (old(running) && Gtk.ScriptFinished !in pending[..k])
      ensures base.state == (if Gtk.Destroyed in pending[..k] then BaseV3.Shutdown else old(base.state))
    {
      k := 0;
      while !runnable
        invariant Valid() && k <= |pending|
        invariant Delivered(pending, k, old(base.log), old(runnable), old(running), old(base.state))
        invariant old(runnable) ==> k == 0
        invariant 0 < k ==> Gtk.LoadDone !in pending[..k - 1]
        decreases |pending| - k
      {
        Gtk.NotInPrefixIsShorter(pending, Gtk.LoadDone, k);
        DeliverNext(pending, k, old(base.log), old(runnable), old(running), old(base.state));
        k := k + 1;
      }
      if !old(runnable) {
        Gtk.FirstAt(pending, Gtk.LoadDone, k);
      }
      Gtk.LoadWaitIsFirst(old(runnable), pending, k);
    }

    /**
      `while (current_javascript_running_) g_main_context_iteration(nullptr, TRUE);`
      `rest` is what the loop delivers from now on; the first `m` events are consumed.
     */
    method SpinWhileRunning(rest: seq<Gtk.Event>) returns (m: nat)
      requires Valid() && running && Gtk.ScriptFinished in rest
      modifies this`runnable, this`running, base`state, base`log
      ensures Valid() && !running
      ensures 0 < m <= |rest| && rest[m - 1] == Gtk.ScriptFinished && Gtk.ScriptFinished !in rest[..m - 1]
      ensures runnable == (old(runnable) || Gtk.LoadDone in rest[..m])
      ensures base.log == old(base.log) + Gtk.EventsOps(rest[..m], base.callback, base.fixed)
      ensures base.state == (if Gtk.Destroyed in rest[..m] then BaseV3.Shutdown else old(base.state))
    {
      m := 0;
      while running
        invariant Valid() && m <= |rest|
        invariant Delivered(rest, m, old(base.log), old(runnable), old(running), old(base.state))
        invariant 0 < m ==> Gtk.ScriptFinished !in rest[..m - 1]
        decreases |rest| - m
      {
        Gtk.NotInPrefixIsShorter(rest, Gtk.ScriptFinished, m);
        DeliverNext(rest, m, old(base.log), old(runnable), old(running), old(base.state));
        m := m + 1;
      }
      Gtk.FirstAt(rest, Gtk.ScriptFinished, m);
    }

    /**
      Spins the main loop until a page has finished loading, submits the script, then
      spins until its completion arrives. `pending` is what the loop will deliver, in
      order; the first spin consumes `pending[..loaded]` and the second the next `more`
      events, `pending[loaded..][..more]`. The script is submitted exactly once, and only
      after a load-finished signal.
     */
    method DoEval(code: string, pending: seq<Gtk.Event>) returns (loaded: nat, more: nat)
      requires Valid() && Gtk.EvalCanFinish(runnable, pending)
      modifies this`runnable, this`running, base`state, base`log
      ensures Valid()
      ensures runnable && !running
      ensures Gtk.LoadWait(old(runnable), pending) == Some(loaded)
      ensures var second := pending[loaded..];
        && 0 < more <= |second| && second[more - 1] == Gtk.ScriptFinished && Gtk.ScriptFinished !in second[..more - 1]
        && base.log == old(base.log) + Gtk.EventsOps(pending[..loaded], base.callback, base.fixed) + [RunScript(code)]
                       + Gtk.EventsOps(second[..more], base.callback, base.fixed)
        && base.state == (if Gtk.Destroyed in pending[..loaded] || Gtk.Destroyed in second[..more] then BaseV3.Shutdown else old(base.state))
    {
      loaded := SpinUntilRunnable(pending);
      Gtk.ScriptsFollowLoadRun(base.log, code);
      running := true;
      base.log := base.log + [RunScript(code)];
      more := SpinWhileRunning(pending[loaded..]);
    }
  }
}
