/**
 * `hideSplashScreen`: the helper a host application calls when it is
 * ready, which looks up `window.__RPSS__` and delegates to its `hide`.
 */
module Runtime {
  import opened Wrappers
  import opened Overlay

  /** The global the helper reads: `window.__RPSS__`. */
  const RuntimeGlobal := "__RPSS__"

  /** The id of the stand-in object used when that global is missing. */
  const DefaultId := "rpss"

  /**
   * The `SplashScreenAPI` interface as the helper observes it at the call:
   * an accessor is `None` when the member is undefined, `Some(true)` when it
   * returns a node and `Some(false)` when it returns `null`.
   */
  datatype SplashScreenApi = SplashScreenApi(
    id: string,
    hidden: Option<bool>,
    getElement: Option<bool>,
    getStyles: Option<bool>,
    getScript: Option<bool>,
    hasHide: bool)

  /** `{ id: 'rpss' }`: no flag, no accessors, no `hide`. */
  function DefaultApi(): SplashScreenApi {
    SplashScreenApi(DefaultId, None, None, None, None, false)
  }

  /** What the helper sees of a global object backed by a `SplashOverlay`. */
  function Observe(g: Global): SplashScreenApi
    reads g.obj
  {
    SplashScreenApi(g.obj.id, Some(g.obj.hidden), Some(g.obj.elementPresent), Some(g.obj.stylesPresent),
                    g.getScript, true)
  }

  /** `window.__RPSS__`, or `None` when it is undefined. */
  function Lookup(window: Window): Option<SplashScreenApi>
    reads if RuntimeGlobal in window then {window[RuntimeGlobal].obj} else {}
  {
    if RuntimeGlobal in window then Some(Observe(window[RuntimeGlobal])) else None
  }

  /** What one call does: accessors called, errors logged, and `hide` calls made. */
  datatype Trace = Trace(accessorCalls: nat, errorsLogged: nat, hideCalls: nat)

  /** `f?.()` calls `f` only when it is defined. */
  function CallCount(accessor: Option<bool>): nat {
    if accessor.Some? then 1 else 0
  }

  predicate Found(accessor: Option<bool>) {
    accessor == Some(true)
  }

  /** The guard sequence of `hideSplashScreen`, with its early returns. */
  function Guard(api: Option<SplashScreenApi>): (t: Trace)
    ensures t.errorsLogged + t.hideCalls <= 1
    ensures t.accessorCalls <= 3
  {
    var rpss := api.GetOr(DefaultApi());
    if rpss.hidden == Some(true) then Trace(0, 0, 0)
    else
      var calls := CallCount(rpss.getElement) + CallCount(rpss.getStyles) + CallCount(rpss.getScript);
      if !(Found(rpss.getElement) && Found(rpss.getStyles) && Found(rpss.getScript)) then Trace(calls, 1, 0)
      else Trace(calls, 0, if rpss.hasHide then 1 else 0)
  }

  /**
   * `hideSplashScreen()`: runs the guard on `window.__RPSS__` and, when it
   * passes, awaits that object's `hide` (begun at time `now`; `wait` is what
   * `hide` waits before the fade).
   */
  method HideSplashScreen(window: Window, now: int) returns (t: Trace, wait: int)
    modifies (if RuntimeGlobal in window then {window[RuntimeGlobal].obj} else {})`hidden
    ensures t == Guard(old(Lookup(window)))
    ensures RuntimeGlobal in window ==>
      var o := window[RuntimeGlobal].obj;
      o.visible == old(o.visible) && o.elementPresent == old(o.elementPresent) &&
      o.stylesPresent == old(o.stylesPresent)
    ensures t.hideCalls == 1 ==> RuntimeGlobal in window && window[RuntimeGlobal].obj.hidden
    ensures t.hideCalls == 1 ==> Guard(Lookup(window)) == Trace(0, 0, 0)
    ensures t.hideCalls == 1 ==> wait == RemainingTime(window[RuntimeGlobal].obj.minDurationMs,
                                                       now - window[RuntimeGlobal].obj.renderedAt)
    ensures t.hideCalls == 1 ==> window[RuntimeGlobal].obj.DetachTime(now) == now + wait + FadeMs
    ensures t.hideCalls == 0 ==> wait == 0 && Lookup(window) == old(Lookup(window))
  {
    var api := Lookup(window);
    t := Guard(api);
    wait := 0;
    if t.hideCalls == 1 {
      var g := window[RuntimeGlobal];
      var _, w := g.obj.Hide(now);
      wait := w;
    }
  }

  // ---------------------------------------------------------------------
  // Properties of the guard

  /** No global: the stand-in has no accessors, so one error is logged and nothing else happens. */
  lemma MissingGlobalLogsError()
    ensures Guard(None) == Trace(0, 1, 0)
  {
  }

  /** Already hidden: an immediate return, with no accessor call, no error and no `hide`. */
  lemma HiddenReturnsAtOnce(api: SplashScreenApi)
    requires api.hidden == Some(true)
    ensures Guard(Some(api)) == Trace(0, 0, 0)
  {
  }

  /** A missing accessor or node: exactly one error and no `hide`. */
  lemma MissingNodeLogsOnce(api: SplashScreenApi)
    requires api.hidden != Some(true)
    requires !Found(api.getElement) || !Found(api.getStyles) || !Found(api.getScript)
    ensures Guard(Some(api)).errorsLogged == 1 && Guard(Some(api)).hideCalls == 0
  {
  }

  /** All three nodes found: no error, every accessor called once, and `hide` called once if defined. */
  lemma AllFoundCallsHide(api: SplashScreenApi)
    requires api.hidden != Some(true)
    requires Found(api.getElement) && Found(api.getStyles) && Found(api.getScript)
    ensures Guard(Some(api)) == Trace(3, 0, if api.hasHide then 1 else 0)
  {
  }

  /** The object the plugin generates has no `getScript`, so the guard never reaches its `hide`. */
  lemma GeneratedObjectNeverHides(o: SplashOverlay)
    ensures Guard(Some(Observe(Global(o, None)))).hideCalls == 0
    ensures !o.hidden ==> Guard(Some(Observe(Global(o, None)))).errorsLogged == 1
  {
  }

  /**
   * On a page where only the plugin's script has run, the helper finds no
   * `__RPSS__` (the script wrote `__VPSS__`) and takes the error path.
   */
  lemma PluginPageTakesErrorPath(window: Window, g: Global)
    requires RuntimeGlobal !in window
    ensures Lookup(window[PluginGlobal := g]) == None
    ensures Guard(Lookup(window[PluginGlobal := g])) == Trace(0, 1, 0)
  {
  }
}
