/**
  The GTK/WebKit adapter of the v1-base generation (`web_view_linux_v2.hpp`,
  `web_view_linux_v2.cpp`). The v1 base holds no state, so this class owns the whole
  session: window settings, the buffered title and URL, the injection buffer, the
  service state and the two flags of the `eval` protocol. GTK and WebKit calls are
  entries of the ghost log; what the main loop delivers is a sequence of events.
 */
module LinuxV2 {

  import opened Native
  import Script
  import Gtk
  import BaseV1

  datatype ServiceStartResult = Success | InitializeFailed

  /** There is no INITIALIZED state in this generation. */
  datatype ServiceStateResult = Uninitialized | Initializing | Running | Shutdown

  /** There is no failure result: a load is issued or buffered. */
  datatype NavigateResult = Success | ServiceNotReadyYet

  /** What `do_service_start` does before running: build the window, turn on developer tools if asked, add the document-start script. */
  function SetupOps(width: int, height: int, devTools: bool, injected: string): seq<Op> {
    [CreateWindow(None, width, height)] + (if devTools then [EnableDevTools] else []) + [AddDocumentStartScript(injected)]
  }

  /** What a successful `do_service_start` issues: build the window and web view, run, replay title, fullscreen, URL, show. */
  function BringUpOps(width: int, height: int, devTools: bool, injected: string,
                      title: string, fullscreen: bool, url: string): seq<Op> {
    SetupOps(width, height, devTools, injected) + Gtk.ReplayOps(title, fullscreen, url) + [ShowWindow]
  }

  /** The bring-up runs no script and leaves the replayed settings as the latest of their kind. */
  lemma BringUpLatest(width: int, height: int, devTools: bool, injected: string, title: string, fullscreen: bool, url: string, a: Aspect)
    ensures var ops := BringUpOps(width, height, devTools, injected, title, fullscreen, url);
      && NoScriptRuns(ops)
      && LastSet(ops, a) == Some(match a case TitleAspect => SetTitle(title) case FullscreenAspect => SetFullscreen(fullscreen) case PageAspect => Native.Navigate(url))
  {
    var setup := SetupOps(width, height, devTools, injected);
    var replay := Gtk.ReplayOps(title, fullscreen, url);
    LastSetSnoc(setup + replay, ShowWindow, a);
    LastSetConcat(setup, replay, a);
    Gtk.ReplayLatest(title, fullscreen, url, a);
  }

  /**
    Appending the bring-up entries to a valid log keeps it valid, and makes the replayed
    title, fullscreen flag and URL the latest ones of their kind: the window ends up
    showing the buffered settings.
   */
  lemma BringUpKeepsValid(log: seq<Op>, runnable: bool, width: int, height: int, devTools: bool, injected: string,
                          title: string, fullscreen: bool, url: string)
    requires Gtk.ScriptsFollowLoad(log) && (runnable ==> LoadFinishedSignal in log)
    ensures var all := log + BringUpOps(width, height, devTools, injected, title, fullscreen, url);
      Gtk.ScriptsFollowLoad(all) && (runnable ==> LoadFinishedSignal in all)
      && LastSet(all, TitleAspect) == Some(SetTitle(title))
      && LastSet(all, FullscreenAspect) == Some(SetFullscreen(fullscreen))
      && LastSet(all, PageAspect) == Some(Native.Navigate(url))
  {
    var ops := BringUpOps(width, height, devTools, injected, title, fullscreen, url);
    BringUpLatest(width, height, devTools, injected, title, fullscreen, url, TitleAspect);
    BringUpLatest(width, height, devTools, injected, title, fullscreen, url, FullscreenAspect);
    BringUpLatest(width, height, devTools, injected, title, fullscreen, url, PageAspect);
    Gtk.ScriptsFollowLoadAppend(log, ops);
    if runnable { Gtk.InPrefix(log, ops, LoadFinishedSignal); }
    LastSetConcat(log, ops, TitleAspect);
    LastSetConcat(log, ops, FullscreenAspect);
    LastSetConcat(log, ops, PageAspect);
  }

  class WebViewLinux {
    const width: int
    const height: int
    var title: string
    const fixed: bool
    var fullscreen: bool
    const devTools: bool
    /** `current_javascript_runnable_`: a page has finished loading. */
    var runnable: bool
    var state: ServiceStateResult
    /** `current_javascript_running_`: a submitted script has not completed yet. */
    var running: bool
    var url: string
    var callback: Option<CallbackId>
    var injected: string
    /** `gtk_window_ != nullptr` */
    var hasWindow: bool
    ghost var log: seq<Op>

    /** Scripts run only on a loaded page, and the runnable flag is backed by a load in the log. */
    ghost predicate Valid()
      reads this
    {
      Gtk.ScriptsFollowLoad(log) && (runnable ==> LoadFinishedSignal in log)
    }

    constructor(width: int, height: int, title: string, fixed: bool, fullscreen: bool, devTools: bool,
                indexUrl: Option<string>, methodName: string)
      ensures Valid()
      ensures this.width == width && this.height == height && this.title == title
      ensures this.fixed == fixed && this.fullscreen == fullscreen && this.devTools == devTools
      ensures state == Uninitialized && !runnable && !running && !hasWindow
      ensures url == Script.IndexUrl(indexUrl, Script.DefaultUrlV2()) && injected == Script.LinuxBridge(methodName)
      ensures callback == None && log == []
    {
      this.width := width;
      this.height := height;
      this.title := title;
      this.fixed := fixed;
      this.fullscreen := fullscreen;
      this.devTools := devTools;
      runnable := false;
      state := Uninitialized;
      running := false;
      url := Script.IndexUrl(indexUrl, Script.DefaultUrlV2());
      callback := None;
      injected := Script.LinuxBridge(methodName);
      hasWindow := false;
      log := [];
    }

    /** Swaps the new callback in, replacing (not composing with) the old one, which is handed back. */
    method DoRegisterJavascriptCallback(cb: Option<CallbackId>) returns (dropped: Option<CallbackId>)
      modifies this`callback
      ensures callback == cb && dropped == old(callback)
    {
      dropped := callback;
      callback := cb;
    }

    /** Buffered while not running (last write wins); sent to the window while running. */
    method DoSetWindowTitle(t: string)
      requires Valid()
      modifies this`title, this`log
      ensures Valid()
      ensures old(state) != Running ==> title == t && log == old(log)
      ensures old(state) == Running ==> title == old(title) && log == old(log) + [SetTitle(t)]
    {
      if state != Running {
        title := t;
      } else {
        Gtk.ScriptsFollowLoadAppend(log, [SetTitle(t)]);
        if runnable { Gtk.InPrefix(log, [SetTitle(t)], LoadFinishedSignal); }
        log := log + [SetTitle(t)];
      }
    }

    /**
      Stores the flag and (un)fullscreens the window in every state; before the window
      exists the GTK call has no effect.
     */
    method DoSetWindowFullscreen(on: bool)
      requires Valid()
      modifies this`fullscreen, this`log
      ensures Valid()
      ensures fullscreen == on
      ensures log == old(log) + (if hasWindow then [SetFullscreen(on)] else [])
    {
      fullscreen := on;
      if hasWindow {
        Gtk.ScriptsFollowLoadAppend(log, [SetFullscreen(on)]);
        if runnable { Gtk.InPrefix(log, [SetFullscreen(on)], LoadFinishedSignal); }
        log := log + [SetFullscreen(on)];
      }
    }

    function DoServiceState(): (s: ServiceStateResult)
      reads this
      ensures s == state
    {
      state
    }

    /**
      Without a state check: a failed GTK initialisation reports `InitializeFailed` and
      changes nothing; otherwise the state passes through `Initializing` to `Running`,
      the buffered title, fullscreen flag and URL are replayed in that order, and the
      window is shown. Afterwards the window shows the buffered title and the page loads
      the buffered URL.
     */
    method DoServiceStart(gtkOk: bool) returns (r: ServiceStartResult)
      requires Valid()
      modifies this`state, this`hasWindow, this`log, this`title, this`fullscreen, this`url
      ensures Valid()
      ensures title == old(title) && fullscreen == old(fullscreen) && url == old(url)
      ensures !gtkOk ==> r == InitializeFailed && state == old(state) && hasWindow == old(hasWindow) && log == old(log)
      ensures gtkOk ==> r == ServiceStartResult.Success && state == Running && hasWindow
      ensures gtkOk ==> log == old(log) + BringUpOps(width, height, devTools, injected, title, fullscreen, url)
      ensures gtkOk ==> LastSet(log, TitleAspect) == Some(SetTitle(title))
      ensures gtkOk ==> LastSet(log, FullscreenAspect) == Some(SetFullscreen(fullscreen))
      ensures gtkOk ==> LastSet(log, PageAspect) == Some(Native.Navigate(url))
    {
      if !gtkOk {
        return InitializeFailed;
      }
      ghost var log0 := log;
      state := Initializing;
      hasWindow := true;
      var setup := SetupOps(width, height, devTools, injected);
      Gtk.ScriptsFollowLoadAppend(log, setup);
      if runnable { Gtk.InPrefix(log, setup, LoadFinishedSignal); }
      log := log + setup;
      state := Running;
      ghost var log1 := log;
      Replay();
      log := log + [ShowWindow];
      AppendThree(log0, setup, Gtk.ReplayOps(title, fullscreen, url), [ShowWindow]);
      BringUpKeepsValid(log0, runnable, width, height, devTools, injected, title, fullscreen, url);
      r := ServiceStartResult.Success;
    }

    /** The replay step of `do_service_start`, while running: each buffered setting is sent to the window. */
    method Replay()
      requires Valid() && state == Running && hasWindow
      modifies this`title, this`fullscreen, this`url, this`log
      ensures Valid()
      ensures title == old(title) && fullscreen == old(fullscreen) && url == old(url)
      ensures log == old(log) + Gtk.ReplayOps(title, fullscreen, url)
    {
      DoSetWindowTitle(title);
      DoSetWindowFullscreen(fullscreen);
      var _ := DoNavigate(url);
      assert log == old(log) + [SetTitle(title)] + [SetFullscreen(fullscreen)] + [Native.Navigate(url)];
    }

    /** Buffers the URL and refuses while not running; loads it and succeeds while running. */
    method DoNavigate(target: string) returns (r: NavigateResult)
      requires Valid()
      modifies this`url, this`log
      ensures Valid()
      ensures old(state) != Running ==> r == ServiceNotReadyYet && url == target && log == old(log)
      ensures old(state) == Running ==> r == NavigateResult.Success && url == old(url) && log == old(log) + [Native.Navigate(target)]
    {
      if state != Running {
        url := target;
        return ServiceNotReadyYet;
      }
      Gtk.ScriptsFollowLoadAppend(log, [Native.Navigate(target)]);
      if runnable { Gtk.InPrefix(log, [Native.Navigate(target)], LoadFinishedSignal); }
      log := log + [Native.Navigate(target)];
      r := NavigateResult.Success;
    }

    /** Appends the wrapped fragment to the document-start script, in every state. */
    method DoInject(code: string)
      modifies this`injected
      ensures injected == Script.Inject(old(injected), code)
    {
      injected := injected + Script.Wrap(code);
    }

    /** `shutdown()`, also reached from the window's "destroy" signal; calling it again changes nothing. */
    method DoShutdown()
      modifies this`state
      ensures state == Shutdown
    {
      state := Shutdown;
    }

    /**
      One event dispatched by the main loop: load-finished makes scripts runnable, a
      script completion clears `running`, a destroyed window shuts the service down, a
      page message reaches the registered callback if there is one, and a fullscreen
      request from the page reaches the window exactly when the window is fixed, as the
      handlers are written (see `Gtk.FullscreenRequestAsWritten`).
     */
    method OnEvent(e: Gtk.Event)
      requires Valid()
      modifies this`runnable, this`running, this`state, this`log
      ensures Valid()
      ensures runnable == (old(runnable) || e == Gtk.LoadDone)
      ensures running == (old(running) && e != Gtk.ScriptFinished)
      ensures state == (if e == Gtk.Destroyed then Shutdown else old(state))
      ensures log == old(log) + Gtk.EventOps(e, callback, fixed)
    {
      ghost var ops := Gtk.EventOps(e, callback, fixed);
      Gtk.ScriptsFollowLoadAppend(log, ops);
      if runnable { Gtk.InPrefix(log, ops, LoadFinishedSignal); }
      match e {
        case LoadChanged(kind) =>
          if kind == Gtk.LoadFinished {
            runnable := true;
          }
        case ScriptFinished =>
          running := false;
        case Destroyed =>
          DoShutdown();
        case _ =>
      }
      log := log + ops;
      assert e == Gtk.LoadDone ==> LoadFinishedSignal in ops;
      if e == Gtk.LoadDone {
        Gtk.InPrefix(ops, [], LoadFinishedSignal);
        assert LoadFinishedSignal in log by {
          assert log[|old(log)|..] == ops;
          var j :| 0 <= j < |ops| && ops[j] == LoadFinishedSignal;
          assert log[|old(log)| + j] == LoadFinishedSignal;
        }
      }
    }

    /** `gtk_main_iteration_do(true)` dispatches one event; the service is alive until shut down. */
    method DoIteration(e: Gtk.Event) returns (alive: bool)
      requires Valid()
      modifies this`runnable, this`running, this`state, this`log
      ensures Valid()
      ensures runnable == (old(runnable) || e == Gtk.LoadDone)
      ensures running == (old(running) && e != Gtk.ScriptFinished)
      ensures state == (if e == Gtk.Destroyed then Shutdown else old(state))
      ensures log == old(log) + Gtk.EventOps(e, callback, fixed)
      ensures alive <==> state != Shutdown
    {
      OnEvent(e);
      alive := state != Shutdown;
    }

    /**
      The effect of the main loop dispatching the first `k` events of `es`, starting from
      the log and flags `log0`, `runnable0`, `running0`, `state0`.
     */
    ghost predicate Delivered(es: seq<Gtk.Event>, k: nat, log0: seq<Op>, runnable0: bool, running0: bool, state0: ServiceStateResult)
      requires k <= |es|
      reads this
    {
      && log == log0 + Gtk.EventsOps(es[..k], callback, fixed)
      && runnable == (runnable0 || Gtk.LoadDone in es[..k])
      && running == (running0 && Gtk.ScriptFinished !in es[..k])
      && state == (if Gtk.Destroyed in es[..k] then Shutdown else state0)
    }

    /** One iteration of a spin loop: the next event of `es` is dispatched. */
    method DeliverNext(es: seq<Gtk.Event>, k: nat, ghost log0: seq<Op>, ghost runnable0: bool, ghost running0: bool,
                       ghost state0: ServiceStateResult)
      requires Valid() && k < |es| && Delivered(es, k, log0, runnable0, running0, state0)
      modifies this`runnable, this`running, this`state, this`log
      ensures Valid() && Delivered(es, k + 1, log0, runnable0, running0, state0)
    {
      Gtk.InStep(es, k, Gtk.LoadDone);
      Gtk.InStep(es, k, Gtk.ScriptFinished);
      Gtk.InStep(es, k, Gtk.Destroyed);
      Gtk.EventsOpsStep(es, k, callback, fixed);
      OnEvent(es[k]);
    }

    /** `while (!current_javascript_runnable_) g_main_context_iteration(nullptr, TRUE);` */
    method SpinUntilRunnable(pending: seq<Gtk.Event>) returns (k: nat)
      requires Valid() && Gtk.LoadWait(runnable, pending).Some?
      modifies this`runnable, this`running, this`state, this`log
      ensures Valid() && runnable
      ensures Gtk.LoadWait(old(runnable), pending) == Some(k)
      ensures log == old(log) + Gtk.EventsOps(pending[..k], callback, fixed)
      ensures running == (old(running) && Gtk.ScriptFinished !in pending[..k])
      ensures state == (if Gtk.Destroyed in pending[..k] then Shutdown else old(state))
    {
      k := 0;
      while !runnable
        invariant Valid() && k <= |pending|
        invariant Delivered(pending, k, old(log), old(runnable), old(running), old(state))
        invariant old(runnable) ==> k == 0
        invariant 0 < k ==> Gtk.LoadDone !in pending[..k - 1]
        decreases |pending| - k
      {
        Gtk.NotInPrefixIsShorter(pending, Gtk.LoadDone, k);
        DeliverNext(pending, k, old(log), old(runnable), old(running), old(state));
        k := k + 1;
      }
      if !old(runnable) {
        Gtk.FirstAt(pending, Gtk.LoadDone, k);
      }
      Gtk.LoadWaitIsFirst(old(runnable), pending, k);
    }

    /**
      `while (current_javascript_running_) g_main_context_iteration(nullptr, TRUE);`
      `rest` is what the loop delivers from now on; the first `m` events are consumed.
     */
    method SpinWhileRunning(rest: seq<Gtk.Event>) returns (m: nat)
      requires Valid() && running && Gtk.ScriptFinished in rest
      modifies this`runnable, this`running, this`state, this`log
      ensures Valid() && !running
      ensures 0 < m <= |rest| && rest[m - 1] == Gtk.ScriptFinished && Gtk.ScriptFinished !in rest[..m - 1]
      ensures runnable == (old(runnable) || Gtk.LoadDone in rest[..m])
      ensures log == old(log) + Gtk.EventsOps(rest[..m], callback, fixed)
      ensures state == (if Gtk.Destroyed in rest[..m] then Shutdown else old(state))
    {
      m := 0;
      while running
        invariant Valid() && m <= |rest|
        invariant Delivered(rest, m, old(log), old(runnable), old(running), old(state))
        invariant 0 < m ==> Gtk.ScriptFinished !in rest[..m - 1]
        decreases |rest| - m
      {
        Gtk.NotInPrefixIsShorter(rest, Gtk.ScriptFinished, m);
        DeliverNext(rest, m, old(log), old(runnable), old(running), old(state));
        m := m + 1;
      }
      Gtk.FirstAt(rest, Gtk.ScriptFinished, m);
    }

    /**
      Spins the main loop until a page has finished loading, submits the script, then
      spins until its completion arrives; returns true. `pending` is what the loop will
      deliver, in order; the first spin consumes `pending[..loaded]` and the second the
      next `more` events, `pending[loaded..][..more]`. The script is submitted exactly
      once, and only after a load-finished signal.
     */
    method DoEval(code: string, pending: seq<Gtk.Event>) returns (r: bool, loaded: nat, more: nat)
      requires Valid() && Gtk.EvalCanFinish(runnable, pending)
      modifies this`runnable, this`running, this`state, this`log
      ensures Valid()
      ensures r && runnable && !running
      ensures Gtk.LoadWait(old(runnable), pending) == Some(loaded)
      ensures var second := pending[loaded..];
        && 0 < more <= |second| && second[more - 1] == Gtk.ScriptFinished && Gtk.ScriptFinished !in second[..more - 1]
        && log == old(log) + Gtk.EventsOps(pending[..loaded], callback, fixed) + [RunScript(code)] + Gtk.EventsOps(second[..more], callback, fixed)
        && state == (if Gtk.Destroyed in pending[..loaded] || Gtk.Destroyed in second[..more] then Shutdown else old(state))
    {
      loaded := SpinUntilRunnable(pending);
      Gtk.ScriptsFollowLoadRun(log, code);
      running := true;
      log := log + [RunScript(code)];
      more := SpinWhileRunning(pending[loaded..]);
      r := true;
    }
  }

  /**
    The facade of this generation: each public operation reaches the backend through
    the v1 forwarding layer. `inject` reaches `do_inject` here, as the corrected routing
    of the v1 base says.
   */
  method Inject(v: WebViewLinux, code: string)
    modifies v`injected
    ensures v.injected == Script.Inject(old(v.injected), code)
  {
    BaseV1.RouteIntendedInjects(code);
    v.DoInject(code);
  }
}
