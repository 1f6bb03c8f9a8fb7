/**
  What the GTK/WebKit main loop delivers to the Linux adapters (v2 and v3), the effect
  each delivered event has on the native side, and the conditions under which the
  spin loops of `do_eval` finish.
 */
module Gtk {

  import opened Native

  /** `WebKitLoadEvent` */
  datatype LoadEvent = LoadStarted | LoadRedirected | LoadCommitted | LoadFinished

  /** One unit of work the main loop dispatches (one `g_main_context_iteration` / `gtk_main_iteration_do`). */
  datatype Event =
    | LoadChanged(kind: LoadEvent)     // "load-changed" on the web view
    | ScriptFinished                   // completion of `webkit_web_view_run_javascript`
    | Destroyed                        // "destroy" on the window
    | ScriptMessage(text: string)      // "script-message-received::external"
    | FullscreenRequest(enter: bool)   // "enter-fullscreen" / "leave-fullscreen" on the web view
    | OtherWork                        // any other source the loop dispatches

  const LoadDone: Event := LoadChanged(LoadFinished)

  /**
    The value the enter- and leave-fullscreen handlers return, as written: FALSE exactly
    when the window is fixed, TRUE otherwise.
   */
  function FullscreenSignalReturnAsWritten(fixed: bool): (handled: bool)
    ensures handled == !fixed
  {
    if fixed then false else true
  }

  /**
    WebKitGTK's rule for these signals: a handler returning TRUE has handled the request
    and stops it; on FALSE the web view proceeds and (un)fullscreens its top-level window.
   */
  predicate EngineProceeds(handled: bool) {
    !handled
  }

  /** As written, the engine may fullscreen a fixed window, and is stopped for a resizable one. */
  lemma FixedWindowNotProtectedAsWritten(fixed: bool)
    ensures EngineProceeds(FullscreenSignalReturnAsWritten(fixed)) <==> fixed
  {
  }

  /** The handler result that keeps the page from (un)fullscreening a fixed-size window. */
  function FullscreenSignalReturn(fixed: bool): (handled: bool)
    ensures EngineProceeds(handled) <==> !fixed
  {
    fixed
  }

  /**
    The native effect of one delivered event, given the registered callback and the
    fixed flag. A fullscreen request follows the handlers as written: WebKit goes on to
    (un)fullscreen the window exactly when the window is fixed.
   */
  function EventOps(e: Event, callback: Option<CallbackId>, fixed: bool): (ops: seq<Op>)
    ensures NoScriptRuns(ops) && NoNavigation(ops)
    ensures LoadFinishedSignal in ops <==> e == LoadDone
  {
    match e
    case LoadChanged(kind) => if kind == LoadFinished then [LoadFinishedSignal] else []
    case ScriptMessage(text) => if callback.Some? then [DeliverMessage(callback.value, text)] else []
    case FullscreenRequest(enter) => if EngineProceeds(FullscreenSignalReturnAsWritten(fixed)) then [SetFullscreen(enter)] else []
    case _ => []
  }

  /** A fullscreen request reaches the window exactly for a fixed window, and only with the requested value. */
  lemma FullscreenRequestAsWritten(enter: bool, callback: Option<CallbackId>, fixed: bool)
    ensures EventOps(FullscreenRequest(enter), callback, fixed) == (if fixed then [SetFullscreen(enter)] else [])
  {
    FixedWindowNotProtectedAsWritten(fixed);
  }

  /** The native effect of a sequence of delivered events, in order. */
  function EventsOps(es: seq<Event>, callback: Option<CallbackId>, fixed: bool): seq<Op>
    decreases |es|
  {
    if es == [] then [] else EventsOps(es[..|es| - 1], callback, fixed) + EventOps(es[|es| - 1], callback, fixed)
  }

  lemma {:induction false} EventsOpsConcat(a: seq<Event>, b: seq<Event>, callback: Option<CallbackId>, fixed: bool)
    ensures EventsOps(a + b, callback, fixed) == EventsOps(a, callback, fixed) + EventsOps(b, callback, fixed)
    decreases |b|
  {
    if b == [] {
      assert a + b == a;
    } else {
      var ab := a + b;
      var init := b[..|b| - 1];
      var last := b[|b| - 1];
      assert ab[..|ab| - 1] == a + init;
      assert ab[|ab| - 1] == last;
      EventsOpsConcat(a, init, callback, fixed);
      var x, y, z := EventsOps(a, callback, fixed), EventsOps(init, callback, fixed), EventOps(last, callback, fixed);
      calc {
        EventsOps(ab, callback, fixed);
        EventsOps(a + init, callback, fixed) + z;
        x + y + z;
        { SeqAssoc(x, y, z); }
        x + (y + z);
        x + EventsOps(b, callback, fixed);
      }
    }
  }

  /** Extending a delivered prefix by the next event. */
  lemma EventsOpsStep(es: seq<Event>, k: nat, callback: Option<CallbackId>, fixed: bool)
    requires k < |es|
    ensures EventsOps(es[..k + 1], callback, fixed) == EventsOps(es[..k], callback, fixed) + EventOps(es[k], callback, fixed)
  {
    assert es[..k + 1][..k] == es[..k];
  }

  /** What is in a prefix extended by one event. */
  lemma InStep(es: seq<Event>, k: nat, e: Event)
    requires k < |es|
    ensures e in es[..k + 1] <==> e in es[..k] || e == es[k]
  {
    assert es[..k + 1] == es[..k] + [es[k]];
  }

  /** A prefix that holds `e` while the prefix one shorter does not ends with `e`. */
  lemma FirstAt(es: seq<Event>, e: Event, m: nat)
    requires m <= |es| && e in es[..m] && (0 < m ==> e !in es[..m - 1])
    ensures 0 < m && es[m - 1] == e
  {
    assert e !in es[..0];
    InStep(es, m - 1, e);
  }

  /** Events never execute a script and never navigate. */
  lemma {:induction false} EventsOpsRunNoScript(es: seq<Event>, callback: Option<CallbackId>, fixed: bool)
    ensures NoScriptRuns(EventsOps(es, callback, fixed))
    ensures LoadFinishedSignal in EventsOps(es, callback, fixed) <==> LoadDone in es
    decreases |es|
  {
    if es != [] {
      var init := es[..|es| - 1];
      EventsOpsRunNoScript(init, callback, fixed);
      assert es == init + [es[|es| - 1]];
      assert LoadDone in es <==> LoadDone in init || es[|es| - 1] == LoadDone;
    }
  }

  /** The position of the first occurrence of `e` in `es`. */
  function IndexOf(es: seq<Event>, e: Event): (r: Option<nat>)
    ensures r.Some? ==> r.value < |es| && es[r.value] == e && e !in es[..r.value]
    ensures r.None? ==> e !in es
  {
    if es == [] then None
    else if es[0] == e then Some(0)
    else match IndexOf(es[1..], e)
      case None => None
      case Some(i) =>
        assert es[..i + 1] == [es[0]] + es[1..][..i];
        Some(i + 1)
  }

  /**
    How many events the first spin loop of `do_eval` consumes: none when the page has
    already finished loading, otherwise every event up to and including the first
    load-finished one. None when the loop would never end.
   */
  function LoadWait(runnable: bool, pending: seq<Event>): (r: Option<nat>)
    ensures r.Some? ==> r.value <= |pending|
    ensures r.Some? && !runnable ==> 0 < r.value && pending[r.value - 1] == LoadDone && LoadDone !in pending[..r.value - 1]
    ensures runnable ==> r == Some(0)
    ensures r.None? <==> !runnable && LoadDone !in pending
  {
    if runnable then Some(0)
    else match IndexOf(pending, LoadDone)
      case None => None
      case Some(i) => Some(i + 1)
  }

  /** `LoadWait` is the only count that stops at the first load-finished event. */
  lemma LoadWaitIsFirst(runnable: bool, pending: seq<Event>, k: nat)
    requires runnable ==> k == 0
    requires !runnable ==> 0 < k <= |pending| && pending[k - 1] == LoadDone && LoadDone !in pending[..k - 1]
    ensures LoadWait(runnable, pending) == Some(k)
  {
    if !runnable {
      assert LoadDone in pending by {
        assert pending[k - 1] == LoadDone;
      }
      FirstOccurrenceUnique(pending, LoadDone, IndexOf(pending, LoadDone).value, k - 1);
    }
  }

  /**
    The fairness assumption under which `eval` returns: the loop will deliver a
    load-finished event (unless the page is already loaded), and after that the
    completion of the submitted script.
   */
  predicate EvalCanFinish(runnable: bool, pending: seq<Event>) {
    var w := LoadWait(runnable, pending);
    w.Some? && ScriptFinished in pending[w.value..]
  }

  /**
    Every script execution in `ops` comes after a load-finished signal, stated entry by
    entry from the end (`ScriptsFollowLoadMeans` gives the positional form).
   */
  predicate ScriptsFollowLoad(ops: seq<Op>)
    decreases |ops|
  {
    ops == [] ||
    (var init := ops[..|ops| - 1];
     ScriptsFollowLoad(init) && (ops[|ops| - 1].RunScript? ==> LoadFinishedSignal in init))
  }

  /** The log is valid exactly when every script entry has a load-finished entry before it. */
  lemma {:induction false} ScriptsFollowLoadMeans(ops: seq<Op>)
    ensures ScriptsFollowLoad(ops) <==> forall i :: 0 <= i < |ops| && ops[i].RunScript? ==> LoadFinishedSignal in ops[..i]
    decreases |ops|
  {
    if ops != [] {
      var n := |ops| - 1;
      var init := ops[..n];
      ScriptsFollowLoadMeans(init);
      assert forall i :: 0 <= i < n ==> init[i] == ops[i] && init[..i] == ops[..i];
    }
  }

  /** Appending entries that run no script keeps every script after a load. */
  lemma {:induction false} ScriptsFollowLoadAppend(ops: seq<Op>, more: seq<Op>)
    requires ScriptsFollowLoad(ops) && NoScriptRuns(more)
    ensures ScriptsFollowLoad(ops + more)
    decreases |more|
  {
    if more == [] {
      assert ops + more == ops;
    } else {
      var all := ops + more;
      var front := more[..|more| - 1];
      assert all[..|all| - 1] == ops + front;
      assert all[|all| - 1] == more[|more| - 1];
      assert NoScriptRuns(front) by {
        assert forall i :: 0 <= i < |front| ==> front[i] == more[i];
      }
      ScriptsFollowLoadAppend(ops, front);
    }
  }

  /** A script submitted once a load has finished keeps every script after a load. */
  lemma ScriptsFollowLoadRun(ops: seq<Op>, code: string)
    requires ScriptsFollowLoad(ops) && LoadFinishedSignal in ops
    ensures ScriptsFollowLoad(ops + [RunScript(code)])
  {
    var all := ops + [RunScript(code)];
    assert all[..|all| - 1] == ops;
  }

  /**
    Appending entries that run no script to a log whose scripts follow a load keeps it
    so, and the log then holds a load-finished entry if it did before or `ops` holds one.
   */
  lemma AppendKeepsValid(log: seq<Op>, runnable: bool, ops: seq<Op>)
    requires ScriptsFollowLoad(log) && (runnable ==> LoadFinishedSignal in log) && NoScriptRuns(ops)
    ensures ScriptsFollowLoad(log + ops)
    ensures runnable || LoadFinishedSignal in ops ==> LoadFinishedSignal in log + ops
  {
    ScriptsFollowLoadAppend(log, ops);
    if runnable {
      InPrefix(log, ops, LoadFinishedSignal);
    }
    if LoadFinishedSignal in ops {
      var j :| 0 <= j < |ops| && ops[j] == LoadFinishedSignal;
      assert (log + ops)[|log| + j] == LoadFinishedSignal;
    }
  }

  /** Anything in a prefix stays in every extension of it. */
  lemma InPrefix(ops: seq<Op>, more: seq<Op>, o: Op)
    requires o in ops
    ensures o in ops + more
  {
    var i :| 0 <= i < |ops| && ops[i] == o;
    assert (ops + more)[i] == o;
  }

  /** An element missing from a prefix but present in the whole lies beyond the prefix. */
  lemma NotInPrefixIsShorter(es: seq<Event>, e: Event, k: nat)
    requires e in es && k <= |es| && e !in es[..k]
    ensures k < |es|
  {
  }

  /** An element before position `j` is in the prefix of length `j`. */
  lemma EarlierIsInPrefix(es: seq<Event>, i: nat, j: nat)
    requires i < |es| && j <= |es|
    ensures i < j ==> es[i] in es[..j]
  {
    if i < j {
      assert es[..j][i] == es[i];
    }
  }

  /** The first occurrence of an element is unique. */
  lemma FirstOccurrenceUnique(es: seq<Event>, e: Event, i: nat, j: nat)
    requires i < |es| && j < |es| && es[i] == e && es[j] == e && e !in es[..i] && e !in es[..j]
    ensures i == j
  {
    EarlierIsInPrefix(es, i, j);
    EarlierIsInPrefix(es, j, i);
  }

  /** The replay of the buffered settings that both GTK adapters issue once running: title, fullscreen flag, URL, in that order. */
  function ReplayOps(title: string, fullscreen: bool, url: string): seq<Op> {
    [SetTitle(title), SetFullscreen(fullscreen), Native.Navigate(url)]
  }

  /** The replay sets each of the three aspects exactly to the buffered value. */
  lemma ReplayLatest(title: string, fullscreen: bool, url: string, a: Aspect)
    ensures LastSet(ReplayOps(title, fullscreen, url), a)
         == Some(match a case TitleAspect => SetTitle(title) case FullscreenAspect => SetFullscreen(fullscreen) case PageAspect => Native.Navigate(url))
  {
    var r1 := [SetTitle(title)];
    var r2 := r1 + [SetFullscreen(fullscreen)];
    var r3 := r2 + [Native.Navigate(url)];
    assert r3 == ReplayOps(title, fullscreen, url);
    LastSetSnoc([], SetTitle(title), a);
    assert [] + [SetTitle(title)] == r1;
    LastSetSnoc(r1, SetFullscreen(fullscreen), a);
    LastSetSnoc(r2, Native.Navigate(url), a);
  }
}
