/**
 * Run-time half of the splash screen as the plugin generates it: the
 * inline script's global object, which shows, hides and removes two DOM
 * nodes (the overlay element and its style element), and the script's
 * start-up sequence.
 */
module Overlay {
  import opened Wrappers
  import opened QueryString
  import Plugin

  /** Length of the fade-out animation, in milliseconds. */
  const FadeMs := 200

  /** The global the generated script assigns: `window.__VPSS__`. */
  const PluginGlobal := "__VPSS__"

  /** `Math.max(minDurationMs - elapsed, 0)`: how long `hide` still waits. */
  function RemainingTime(minDurationMs: int, elapsed: int): (r: int)
    ensures r >= 0 && r >= minDurationMs - elapsed
    ensures r == 0 || r == minDurationMs - elapsed
  {
    if minDurationMs - elapsed > 0 then minDurationMs - elapsed else 0
  }

  /** With a clock that does not run backwards the wait never exceeds the configured minimum. */
  lemma RemainingTimeBounds(minDurationMs: int, elapsed: int)
    requires elapsed >= 0 && minDurationMs >= 0
    ensures 0 <= RemainingTime(minDurationMs, elapsed) <= minDurationMs
    ensures RemainingTime(minDurationMs, elapsed) == 0 <==> elapsed >= minDurationMs
  {
  }

  /**
   * The object the inline script stores in `window.__VPSS__`, together with
   * the two nodes it manages. `elementPresent` and `stylesPresent` say
   * whether `getElement()` and `getStyles()` find their node; `visible` is
   * whether `show` has set the element visible.
   */
  class SplashOverlay {
    const id: string
    var hidden: bool
    const renderedAt: int
    const minDurationMs: int
    var elementPresent: bool
    var stylesPresent: bool
    var visible: bool

    /** The object literal: `hidden` starts as `param === "false"`. */
    constructor (param: Option<string>, now: int, minDurationMs: int, elementInDom: bool, stylesInDom: bool)
      ensures id == Plugin.SplashId
      ensures hidden == (param == Some("false"))
      ensures renderedAt == now && this.minDurationMs == minDurationMs
      ensures elementPresent == elementInDom && stylesPresent == stylesInDom && !visible
    {
      id := Plugin.SplashId;
      hidden := param == Some("false");
      renderedAt := now;
      this.minDurationMs := minDurationMs;
      elementPresent := elementInDom;
      stylesPresent := stylesInDom;
      visible := false;
    }

    /** `show`: makes the element visible, if there is one. */
    method Show()
      modifies this`visible
      ensures visible == (old(visible) || elementPresent)
    {
      if !elementPresent {
        return;
      }
      visible := true;
    }

    /**
     * `hide`, up to the point where it waits: with no element it does
     * nothing; otherwise it sets `hidden` first and then computes the wait.
     * The nodes are untouched until the fade ends and `Remove` runs.
     */
    method Hide(now: int) returns (started: bool, wait: int)
      modifies this`hidden
      ensures started == elementPresent
      ensures hidden == (old(hidden) || started)
      ensures wait == if started then RemainingTime(minDurationMs, now - renderedAt) else 0
      ensures started ==> DetachTime(now) == now + wait + FadeMs
    {
      started, wait := false, 0;
      if !elementPresent {
        return;
      }
      hidden := true;
      started := true;
      var elapsedTime := now - renderedAt;
      wait := RemainingTime(minDurationMs, elapsedTime);
    }

    /** `remove`: deletes both nodes when both exist, and neither otherwise. */
    method Remove()
      modifies this`elementPresent, this`stylesPresent
      ensures old(elementPresent && stylesPresent) ==> !elementPresent && !stylesPresent
      ensures !old(elementPresent && stylesPresent) ==>
        elementPresent == old(elementPresent) && stylesPresent == old(stylesPresent)
    {
      if elementPresent && stylesPresent {
        elementPresent := false;
        stylesPresent := false;
      }
    }

    /**
     * When `remove` runs for a `hide` begun at `now`: after the wait and the
     * fade, so never before the minimum duration since rendering has passed.
     */
    function DetachTime(now: int): (t: int)
      reads this
      ensures t >= renderedAt + minDurationMs + FadeMs && t >= now + FadeMs
      ensures t == now + FadeMs || t == renderedAt + minDurationMs + FadeMs
    {
      now + RemainingTime(minDurationMs, now - renderedAt) + FadeMs
    }
  }

  /**
   * A global object as `hideSplashScreen` sees it: state and members of a
   * `SplashOverlay`, plus a `getScript` accessor that is `None` when the
   * object has none and otherwise says whether it finds a script node.
   */
  datatype Global = Global(obj: SplashOverlay, getScript: Option<bool>)

  /** The page's globals by name. */
  type Window = map<string, Global>

  /** The address after start-up: the parameter is deleted only when its value is non-empty. */
  function StripQuery(query: QueryParams): QueryParams {
    if Plugin.Truthy(Get(query, Plugin.SplashId)) then Delete(query, Plugin.SplashId) else query
  }

  /**
   * After start-up the overlay's parameter is gone, unless it was present
   * with an empty value; every other parameter reads as before.
   */
  lemma StripQueryResult(query: QueryParams, other: string)
    requires other != Plugin.SplashId
    ensures Get(StripQuery(query), Plugin.SplashId) ==
      if Plugin.Truthy(Get(query, Plugin.SplashId)) then None else Get(query, Plugin.SplashId)
    ensures Get(StripQuery(query), other) == Get(query, other)
  {
    DeletedIsAbsent(query, Plugin.SplashId);
    DeleteKeepsOthers(query, Plugin.SplashId, other);
  }

  /**
   * The generated script's start-up sequence: read the parameter, create
   * the global object, then `remove()` when hidden and `show()` otherwise,
   * and finally strip the parameter from the address.
   */
  method RunInlineScript(window: Window, query: QueryParams, now: int, minDurationMs: int,
                         elementInDom: bool, stylesInDom: bool)
    returns (o: SplashOverlay, window': Window, query': QueryParams)
    ensures fresh(o)
    ensures window' == window[PluginGlobal := Global(o, None)]
    ensures o.id == Plugin.SplashId && o.renderedAt == now && o.minDurationMs == minDurationMs
    ensures o.hidden == (Get(query, Plugin.SplashId) == Some("false"))
    ensures o.hidden ==> !o.visible
    ensures o.hidden ==> o.elementPresent == (elementInDom && !stylesInDom)
    ensures o.hidden ==> o.stylesPresent == (stylesInDom && !elementInDom)
    ensures !o.hidden ==> o.visible == elementInDom
    ensures !o.hidden ==> o.elementPresent == elementInDom && o.stylesPresent == stylesInDom
    ensures query' == StripQuery(query)
  {
    var param := Get(query, Plugin.SplashId);
    o := new SplashOverlay(param, now, minDurationMs, elementInDom, stylesInDom);
    window' := window[PluginGlobal := Global(o, None)];
    if o.hidden {
      o.Remove();
    } else {
      o.Show();
    }
    query' := query;
    if Plugin.Truthy(param) {
      query' := Delete(query, Plugin.SplashId);
    }
  }
}
