/**
  The second-generation base (`impl/v2/web_view_base.hpp`): the window and page
  settings, the service state, and the buffering of title, fullscreen and URL writes
  until the backend is running. What the backend does with a forwarded call is not part
  of this model; each forwarded call is recorded in the log and its result is an input.
 */
module BaseV2 {

  import opened Native
  import Script

  datatype ServiceStartResult = Success | StateNotInitialized | ServiceInitializeFailed

  datatype ServiceStateResult = Uninitialized | Initialized | Running | Shutdown

  datatype NavigateResult = Success | ServiceNotReadyYet | NavigateFailed

  class WebViewBase {
    var width: int
    var height: int
    var title: string
    var fixed: bool
    var fullscreen: bool
    var devTools: bool
    var state: ServiceStateResult
    var url: string
    var callback: Option<CallbackId>
    var injected: string
    /** The backend hooks called so far, in order. */
    ghost var log: seq<Op>

    constructor(width: int, height: int, title: string, fixed: bool, fullscreen: bool, devTools: bool,
                indexUrl: Option<string>)
      ensures this.width == width && this.height == height && this.title == title
      ensures this.fixed == fixed && this.fullscreen == fullscreen && this.devTools == devTools
      ensures state == Uninitialized && url == Script.IndexUrl(indexUrl, Script.DefaultUrlV2())
      ensures callback == None && injected == "" && log == []
    {
      this.width := width;
      this.height := height;
      this.title := title;
      this.fixed := fixed;
      this.fullscreen := fullscreen;
      this.devTools := devTools;
      state := Uninitialized;
      url := Script.IndexUrl(indexUrl, Script.DefaultUrlV2());
      callback := None;
      injected := "";
      log := [];
    }

    /** Swaps the new callback in; the previous one is handed back to be destroyed. */
    method RegisterJavascriptCallback(cb: Option<CallbackId>) returns (dropped: Option<CallbackId>)
      modifies this
      ensures callback == cb && dropped == old(callback)
      ensures unchanged(this`title, this`fullscreen, this`state, this`url, this`injected, this`log)
    {
      dropped := callback;
      callback := cb;
    }

    /** Buffered while not running (last write wins); forwarded to the backend while running. */
    method SetWindowTitle(t: string)
      modifies this
      ensures old(state) != Running ==> title == t && log == old(log)
      ensures old(state) == Running ==> title == old(title) && log == old(log) + [SetTitle(t)]
      ensures unchanged(this`fullscreen, this`state, this`url, this`callback, this`injected)
    {
      if state != Running {
        title := t;
      } else {
        log := log + [SetTitle(t)];
      }
    }

    /** Forwards to the backend only when the flag actually changes. */
    method SetWindowFullscreen(on: bool)
      modifies this
      ensures fullscreen == on
      ensures old(fullscreen) == on ==> log == old(log)
      ensures old(fullscreen) != on ==> log == old(log) + [SetFullscreen(on)]
      ensures unchanged(this`title, this`state, this`url, this`callback, this`injected)
    {
      if fullscreen != on {
        fullscreen := on;
        log := log + [SetFullscreen(fullscreen)];
      }
    }

    function ServiceState(): (s: ServiceStateResult)
      reads this
      ensures s == state
    {
      state
    }

    /**
      While not running the URL is buffered (last write wins) and the call is refused
      with `ServiceNotReadyYet`; while running it is forwarded and its result returned.
     */
    method Navigate(target: string, backendResult: NavigateResult) returns (r: NavigateResult)
      modifies this
      ensures old(state) != Running ==> r == ServiceNotReadyYet && url == target && log == old(log)
      ensures old(state) == Running ==> r == backendResult && url == old(url) && log == old(log) + [Native.Navigate(target)]
      ensures unchanged(this`title, this`fullscreen, this`state, this`callback, this`injected)
    {
      if state != Running {
        url := target;
        r := ServiceNotReadyYet;
      } else {
        log := log + [Native.Navigate(target)];
        r := backendResult;
      }
    }

    /** Appends the wrapped fragment in every state; the backend is not told. */
    method Inject(code: string)
      modifies this`injected
      ensures injected == Script.Inject(old(injected), code)
    {
      injected := injected + Script.Wrap(code);
    }

    method Eval(code: string, backendResult: bool) returns (r: bool)
      modifies this`log
      ensures r == backendResult && log == old(log) + [BackendEval(code)]
    {
      log := log + [BackendEval(code)];
      r := backendResult;
    }

    /**
      No state check of its own (the guard is commented out in the source): the backend
      is started from whatever state this object is in, and its result is returned. The
      state the backend leaves behind is an input.
     */
    method ServiceStart(backendResult: ServiceStartResult, stateAfter: ServiceStateResult) returns (r: ServiceStartResult)
      modifies this`log, this`state
      ensures r == backendResult && state == stateAfter && log == old(log) + [BackendServiceStart]
    {
      log := log + [BackendServiceStart];
      state := stateAfter;
      r := backendResult;
    }

    method Iteration(backendResult: bool) returns (r: bool)
      modifies this`log
      ensures r == backendResult && log == old(log) + [BackendIteration]
    {
      log := log + [BackendIteration];
      r := backendResult;
    }

    method ShutdownService()
      modifies this`log
      ensures log == old(log) + [BackendShutdown]
    {
      log := log + [BackendShutdown];
    }
  }

  /** The `SetFullscreen` calls of a log. */
  function FullscreenCalls(ops: seq<Op>): (r: seq<bool>)
    ensures |r| <= |ops|
  {
    if ops == [] then []
    else (if ops[|ops| - 1].SetFullscreen? then FullscreenCalls(ops[..|ops| - 1]) + [ops[|ops| - 1].on]
          else FullscreenCalls(ops[..|ops| - 1]))
  }

  /** One more entry adds its value to the fullscreen calls exactly when it is one. */
  lemma FullscreenCallsSnoc(ops: seq<Op>, o: Op)
    ensures FullscreenCalls(ops + [o]) == FullscreenCalls(ops) + (if o.SetFullscreen? then [o.on] else [])
  {
    assert (ops + [o])[..|ops|] == ops;
  }

  /**
    A log has no fullscreen calls exactly when none of its entries is one, and the last
    call is the value of the log's latest fullscreen setting.
   */
  lemma {:induction false} FullscreenCallsMeans(ops: seq<Op>)
    ensures FullscreenCalls(ops) == [] <==> forall i :: 0 <= i < |ops| ==> !ops[i].SetFullscreen?
    ensures LastSet(ops, FullscreenAspect).Some? ==>
      var r := FullscreenCalls(ops);
      r != [] && r[|r| - 1] == LastSet(ops, FullscreenAspect).value.on
    decreases |ops|
  {
    if ops != [] {
      var init := ops[..|ops| - 1];
      FullscreenCallsMeans(init);
      assert forall i :: 0 <= i < |init| ==> init[i] == ops[i];
    }
  }

  /**
    Setting the same fullscreen value twice reaches the backend at most once, and only
    with that value.
   */
  method SetFullscreenTwice(v: WebViewBase, on: bool)
    modifies v
    ensures v.fullscreen == on
    ensures FullscreenCalls(v.log) == FullscreenCalls(old(v.log)) + (if old(v.fullscreen) == on then [] else [on])
  {
    v.SetWindowFullscreen(on);
    v.SetWindowFullscreen(on);
    if old(v.fullscreen) != on {
      assert v.log[..|v.log| - 1] == old(v.log);
    }
  }

  /** Two injections accumulate in call order, whatever the state. */
  method InjectTwice(v: WebViewBase, a: string, b: string)
    modifies v
    ensures v.injected == old(v.injected) + Script.Wrap(a) + Script.Wrap(b)
    ensures v.injected[..|old(v.injected)|] == old(v.injected)
    ensures unchanged(v`state, v`log)
  {
    v.Inject(a);
    v.Inject(b);
    Script.InjectAllKeepsPrefix(old(v.injected), [a, b]);
    Script.InjectTwice(old(v.injected), a, b);
    assert Script.InjectAll(old(v.injected), [a, b]) == Script.Inject(Script.Inject(old(v.injected), a), b) by {
      assert [a, b][1..] == [b];
      assert [b][1..] == [];
    }
  }
}
