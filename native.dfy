/**
  Values shared by every part of the model: the optional value, the identity of a
  registered message callback, a window rectangle, and the effects the adapters have
  on the native platform (window system, browser engine), recorded in a ghost log.
 */
module Native {

  datatype Option<+T> = None | Some(value: T)

  /** A registered `std::function` message callback, known by an identity only. */
  type CallbackId = nat

  /** A Win32 `RECT`: left, top, right, bottom. */
  datatype Rect = Rect(left: int, top: int, right: int, bottom: int)
  {
    function Width(): int { right - left }
    function Height(): int { bottom - top }
  }

  /**
    One effect on the native platform, or one notification from it that the
    proofs need to refer to. Entries are appended in the order they happen.
   */
  datatype Op =
    // window and page, common to both platforms
    | CreateWindow(initialTitle: Option<string>, width: int, height: int) // gtk_window_new / CreateWindow, with the title it is created with
    | ShowWindow                                            // gtk_widget_show_all / ShowWindow
    | SetTitle(title: string)                               // gtk_window_set_title / SetWindowText
    | Navigate(url: string)                                 // webkit_web_view_load_uri / ICoreWebView2::Navigate
    | AddDocumentStartScript(code: string)                  // user script run at document start of every load
    | RunScript(code: string)                               // webkit_web_view_run_javascript / ExecuteScript
    | EnableDevTools
    | DeliverMessage(callback: CallbackId, message: string) // the registered callback is invoked
    // GTK only
    | SetFullscreen(on: bool)                               // gtk_window_fullscreen / gtk_window_unfullscreen
    | LoadFinishedSignal                                    // "load-changed" delivered with WEBKIT_LOAD_FINISHED
    // Win32 / WebView2 only
    | SetStyle(style: bv64)                                 // SetWindowLongPtr(GWL_STYLE)
    | SetExStyle(exStyle: bv64)                             // SetWindowLongPtr(GWL_EXSTYLE)
    | SetWindowPos(rect: Rect)
    | SetControllerBounds(rect: Rect)                       // ICoreWebView2Controller::put_Bounds
    | CoInitialize
    | CoUninitialize
    | CreateEnvironment(path: string)
    | CreateController
    | PostQuit
    // calls into a backend whose implementation is not part of this model (v2 base)
    | BackendServiceStart
    | BackendEval(code: string)
    | BackendIteration
    | BackendShutdown

  /** Regrouping appended entries, which the solver does not always do unaided. */
  lemma SeqAssoc(x: seq<Op>, y: seq<Op>, z: seq<Op>)
    ensures x + y + z == x + (y + z)
  {
  }

  lemma AppendThree(log0: seq<Op>, a: seq<Op>, b: seq<Op>, c: seq<Op>)
    ensures log0 + a + b + c == log0 + (a + b + c)
  {
  }

  /** No entry of `ops` is a script execution. */
  predicate NoScriptRuns(ops: seq<Op>) {
    forall i :: 0 <= i < |ops| ==> !ops[i].RunScript?
  }

  /** No entry of `ops` addresses the page or the window through the backend. */
  predicate NoNavigation(ops: seq<Op>) {
    forall i :: 0 <= i < |ops| ==> !ops[i].Navigate?
  }

  /** The aspects of the window and page whose latest setting the log determines. */
  datatype Aspect = TitleAspect | PageAspect | FullscreenAspect

  predicate Sets(o: Op, a: Aspect) {
    match a
    case TitleAspect => o.SetTitle?
    case PageAspect => o.Navigate?
    case FullscreenAspect => o.SetFullscreen?
  }

  /** The latest entry of `ops` that sets aspect `a`: what the window or page now shows. */
  function LastSet(ops: seq<Op>, a: Aspect): (r: Option<Op>)
    ensures r.Some? ==> Sets(r.value, a) && r.value in ops
    ensures r.None? ==> forall i :: 0 <= i < |ops| ==> !Sets(ops[i], a)
  {
    if ops == [] then None
    else if Sets(ops[|ops| - 1], a) then Some(ops[|ops| - 1])
    else LastSet(ops[..|ops| - 1], a)
  }

  /** Appending entries: a later setting overrides, otherwise the earlier one stays. */
  lemma {:induction false} LastSetConcat(ops: seq<Op>, more: seq<Op>, a: Aspect)
    ensures LastSet(ops + more, a) == if LastSet(more, a).Some? then LastSet(more, a) else LastSet(ops, a)
    decreases |more|
  {
    if more == [] {
      assert ops + more == ops;
    } else {
      var all := ops + more;
      assert all[|all| - 1] == more[|more| - 1];
      assert all[..|all| - 1] == ops + more[..|more| - 1];
      LastSetConcat(ops, more[..|more| - 1], a);
    }
  }

  /** One more entry: it is the latest setting if it sets the aspect. */
  lemma LastSetSnoc(ops: seq<Op>, o: Op, a: Aspect)
    ensures LastSet(ops + [o], a) == if Sets(o, a) then Some(o) else LastSet(ops, a)
  {
    assert (ops + [o])[..|ops|] == ops;
  }

  /** With no entry setting the aspect there is no latest setting. */
  lemma LastSetNone(ops: seq<Op>, a: Aspect)
    requires forall i :: 0 <= i < |ops| ==> !Sets(ops[i], a)
    ensures LastSet(ops, a) == None
  {
  }
}
