/**
  The first-generation base (`impl/web_view_base.hpp`): a stateless forwarding layer in
  which every public operation is one call of a `do_*` hook of the backend. It is a
  routing function from facade operations to backend hooks.
 */
module BaseV1 {

  import Native

  /** A public operation of the facade, with its argument. */
  datatype FacadeCall =
    | RegisterJavascriptCallback(callback: Native.Option<Native.CallbackId>)
    | SetWindowTitle(title: string)
    | SetWindowFullscreen(on: bool)
    | ServiceStart
    | ServiceState
    | Navigate(url: string)
    | Inject(code: string)
    | Eval(code: string)
    | Iteration
    | Shutdown

  /** A backend hook, with the argument it receives. */
  datatype HookCall =
    | DoRegisterJavascriptCallback(callback: Native.Option<Native.CallbackId>)
    | DoSetWindowTitle(title: string)
    | DoSetWindowFullscreen(on: bool)
    | DoServiceStart
    | DoServiceState
    | DoNavigate(url: string)
    | DoInject(code: string)
    | DoEval(code: string)
    | DoIteration
    | DoShutdown

  /** The facade operation a hook implements: the hook of the same name, argument unchanged. */
  function Implements(h: HookCall): FacadeCall {
    match h
    case DoRegisterJavascriptCallback(cb) => RegisterJavascriptCallback(cb)
    case DoSetWindowTitle(t) => SetWindowTitle(t)
    case DoSetWindowFullscreen(b) => SetWindowFullscreen(b)
    case DoServiceStart => ServiceStart
    case DoServiceState => ServiceState
    case DoNavigate(u) => Navigate(u)
    case DoInject(c) => Inject(c)
    case DoEval(c) => Eval(c)
    case DoIteration => Iteration
    case DoShutdown => Shutdown
  }

  /**
    The hook each facade operation calls, as written: every operation reaches the hook
    that implements it, except `inject`, whose script text is handed to `do_navigate`.
   */
  function Route(c: FacadeCall): (h: HookCall)
    ensures !c.Inject? ==> Implements(h) == c
    ensures c.Inject? ==> h == DoNavigate(c.code)
  {
    match c
    case RegisterJavascriptCallback(cb) => DoRegisterJavascriptCallback(cb)
    case SetWindowTitle(t) => DoSetWindowTitle(t)
    case SetWindowFullscreen(b) => DoSetWindowFullscreen(b)
    case ServiceStart => DoServiceStart
    case ServiceState => DoServiceState
    case Navigate(u) => DoNavigate(u)
    case Inject(code) => DoNavigate(code)
    case Eval(code) => DoEval(code)
    case Iteration => DoIteration
    case Shutdown => DoShutdown
  }

  /**
    As written, no facade operation reaches `do_inject`: `inject` is routed to
    `do_navigate`. (On Linux v2 that forwarding returns `do_navigate`'s result from a
    function returning nothing, so a call to `inject` there does not compile at all.)
   */
  lemma RouteNeverInjects(c: FacadeCall)
    ensures !Route(c).DoInject?
  {
  }

  /** The routing the `noexcept` clauses and result types of `inject` name: `inject` reaches `do_inject`. */
  function RouteIntended(c: FacadeCall): (h: HookCall)
    ensures Implements(h) == c
  {
    match c
    case RegisterJavascriptCallback(cb) => DoRegisterJavascriptCallback(cb)
    case SetWindowTitle(t) => DoSetWindowTitle(t)
    case SetWindowFullscreen(b) => DoSetWindowFullscreen(b)
    case ServiceStart => DoServiceStart
    case ServiceState => DoServiceState
    case Navigate(u) => DoNavigate(u)
    case Inject(code) => DoInject(code)
    case Eval(code) => DoEval(code)
    case Iteration => DoIteration
    case Shutdown => DoShutdown
  }

  /**
    The intended routing is one-to-one and onto: every hook is reached by exactly one
    facade operation, so distinct calls never reach the same hook with the same argument.
   */
  lemma RouteIntendedIsBijective(c1: FacadeCall, c2: FacadeCall, h: HookCall)
    ensures RouteIntended(c1) == RouteIntended(c2) ==> c1 == c2
    ensures RouteIntended(Implements(h)) == h
  {
    assert Implements(RouteIntended(c1)) == c1;
    assert Implements(RouteIntended(c2)) == c2;
  }

  /** With the corrected routing, `inject` hands its script, unchanged, to `do_inject`. */
  lemma RouteIntendedInjects(code: string)
    ensures RouteIntended(Inject(code)) == DoInject(code)
    ensures Route(Inject(code)) == DoNavigate(code)
  {
  }

  /** The as-written routing agrees with the intended one on every operation except `inject`. */
  lemma RouteDiffersOnlyOnInject(c: FacadeCall)
    ensures Route(c) == RouteIntended(c) <==> !c.Inject?
  {
  }

  /** A concrete call showing the difference: `inject` is routed exactly as `navigate` is. */
  lemma InjectIsNavigatedAsWritten()
    ensures Route(Inject("alert(1)")) == DoNavigate("alert(1)")
    ensures Route(Inject("alert(1)")) == Route(Navigate("alert(1)"))
    ensures RouteIntended(Inject("alert(1)")) == DoInject("alert(1)")
  {
  }
}
