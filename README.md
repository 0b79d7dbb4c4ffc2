# Splash-screen plugin: a Dafny model

This project models the two sequential pieces of `rspack-plugin-splash-screen`:

- **Build-time injection** (`src/plugin.ts`). The plugin's constructor validates its options and fills in defaults. `transformHtml` then builds a `<style id="vpss-style">` block from the base CSS and the selected loader CSS, with the first colour marker of each filled in. It builds the overlay fragment from the logo, the loader markup and an inline script. It puts the style block before the first `</head>` and the fragment before the first `</body>`. The logo comes from a `for` loop with `break` over three candidate paths.
- **Run-time dismissal**. The inline script creates a global object (`window.__VPSS__`) with `hidden`, `renderedAt` and `minDurationMs`, plus `show`, `hide` and `remove`, which act on two DOM nodes: the overlay element and its style element. `hideSplashScreen` (`src/runtime.ts`) is a chain of guards over `window.__RPSS__` that ends by calling that object's `hide`.

Modules, one per concern:

- `Wrappers`: `Option` and `Result`.
- `Text`: JavaScript `indexOf` and `replace` with a string pattern, which replaces only the first occurrence. This module also proves how the first occurrence of a closing tag moves when a fragment is inserted.
- `Decimal`: the text `${n}` gives for an integer, and the value the browser reads back from it.
- `QueryString`: `URLSearchParams.get` and `delete` over an ordered list of name/value pairs.
- `Plugin`: options, templates, the logo loop (`ResolveLogo`), the `SplashScreenPlugin` class and its `TransformHtml`. It also defines `Spliced`, an independent statement of where the fragments end up.
- `Overlay`: the generated object as the class `SplashOverlay` (`Show`, `Hide`, `Remove`) and the script's start-up sequence `RunInlineScript`.
- `Runtime`: the guard function `Guard` and the method `HideSplashScreen`, which calls `SplashOverlay.Hide`.

The model follows the code as written, including these behaviours of the code:

- The generated script uses the id `vpss` and the global `window.__VPSS__` (src/plugin.ts:186, 192, 198). The runtime reads `window.__RPSS__` and falls back to `{ id: 'rpss' }` (src/runtime.ts:30, 49), and the end-to-end tests look for `#rpss`. `Runtime.PluginPageTakesErrorPath` shows that on a page where only the plugin's script has run, the helper takes the error path.
- The runtime also requires `getScript` to return a node (src/runtime.ts:56-58). The generated object defines no `getScript` (src/plugin.ts:198-250), so even under the right name the helper never calls its `hide` (`Runtime.GeneratedObjectNeverHides`). The runtime's error message says the plugin is missing, yet it also fires when only `getScript` is absent (src/runtime.ts:56-61).
- `readPluginFile` runs on every `transformHtml` call (src/plugin.ts:107-114, 180-182), not once per plugin. The model passes the template texts to `TransformHtml` as a `Templates` value.
- The logo warning fires whenever the logo text is empty, so an existing but empty file also triggers the "not found" warning (src/plugin.ts:132).
- The query parameter is removed from the address only when its value is non-empty (src/plugin.ts:259). `?vpss=` therefore stays (`Overlay.StripQueryResult`).
- `remove` deletes nothing unless both nodes exist. So on a page without `</head>` (no style element was inserted), the overlay element is never removed (`Overlay.SplashOverlay.Remove`).
- `publicDir` is always `"public"`, and `path.resolve` of a relative path starts from the working directory. So the three logo candidates (src/plugin.ts:119-123) all name the same file. The model keeps them as three separate candidates.

## Model

| member | source | states |
|---|---|---|
| `Plugin.ResolveOptions` | src/plugin.ts:19-32 | fails, with the constructor's message, exactly when `logoSrc` is missing or empty; otherwise stores `logoSrc` unchanged and uses each supplied option as given (empty strings included), falling back to 0, `line`, `#0072f5` and `#ffffff` only for missing ones |
| `Plugin.NewPlugin` | src/plugin.ts:19-35 | the throwing constructor: an error exactly when `logoSrc` is falsy, else a fresh plugin whose options are the resolved ones and whose `publicDir` is `"public"` |
| `Plugin.SplashScreenPlugin.constructor` | src/plugin.ts:26-34 | stores the resolved options and the default public directory |
| `Plugin.FirstExisting` | src/plugin.ts:119-130 | the candidate found is the first existing one in list order: it exists and no earlier one does; `None` only when none of the three exists |
| `Plugin.ResolveLogo` | src/plugin.ts:117-130 | the loop reads exactly the first existing candidate, returns its contents (empty when none exists), and stops probing there, so later candidates are never examined |
| `Plugin.LogoIgnoresLaterCandidates` | src/plugin.ts:125-130 | once candidate `i` exists and none before it does, the logo is its contents whatever any later candidate holds |
| `Plugin.SplashScreenPlugin.TransformHtml` | src/plugin.ts:106-156 | the output is `Transform` of the page (style block before the first `</head>`, overlay fragment before the first `</body>`), and the warning is raised exactly when the logo text is empty, including an existing empty file |
| `Plugin.TransformIsSpliced` | src/plugin.ts:149-155 | when the style block holds no `</body>`, the output equals `Spliced`: each fragment sits immediately before the first occurrence of its tag in the original page, in either tag order, and a page without a tag keeps that half unchanged |
| `Plugin.InsertionsAreSpliced` | src/plugin.ts:149-154 | the two chained first-occurrence insertions equal `Spliced` for any style fragment that opens with `<` and holds no `</body>` |
| `Plugin.TransformLength` | src/plugin.ts:149-155 | when the page has both closing tags, the output is longer by exactly the style block plus the overlay fragment |
| `Plugin.NoLoaderIgnoresLoaderTemplates` | src/plugin.ts:109-115 | with loader kind `none` the style block is the style tag around the filled base CSS alone, and the output does not depend on any loader template (CSS or HTML, src/plugin.ts:177-183) |
| `Plugin.LoaderSelectsOwnPair` | src/plugin.ts:177-183 | kind `line` uses only the line CSS and HTML, kind `dots` only the dots pair |
| `Plugin.DurationLiteralRoundTrip` | src/plugin.ts:202 | the literal written into the script reads back as the configured minimum duration |
| `Decimal.IntRoundTrip` | src/plugin.ts:202 | parsing the decimal text of any integer gives that integer |
| `Text.IndexOfFrom` | src/plugin.ts:144-154 | the search finds an occurrence with none before it, and `None` only when the pattern does not occur |
| `Text.ReplaceFirstShape` | src/plugin.ts:144-145 | when the pattern occurs at `i` and at no earlier index, `replace` swaps exactly that occurrence for the replacement and keeps everything else, later occurrences included |
| `Plugin.StyleBlockFillsFirstMarkers` | src/plugin.ts:144-147 | given the first splash marker of the base CSS and the first loader marker of the loader CSS, the style block is the style tag around the base CSS with `splashBg` in place of that marker, followed by the loader CSS with `loaderBg` in place of its marker |
| `Text.ReplaceFirstLength` | src/plugin.ts:144-145 | replacement changes the length by `|rep| - |p|` when the pattern occurs and leaves the string unchanged when it does not |
| `Text.InsertBeforeAt` | src/plugin.ts:152-154 | `s.replace(tag, x + tag)` inserts `x` immediately before the first `tag` |
| `Text.IndexOfAfterInsert` | src/plugin.ts:152-154 | inserting a fragment that opens with `<` and holds no `</body>` before a `<` moves the first `</body>` by the fragment's length if it lay after the insertion point and keeps it otherwise |
| `Text.ContainsAfterInsert` | src/plugin.ts:152-154 | such an insertion never destroys an occurrence of a closing tag |
| `QueryString.Get` | src/plugin.ts:195 | `get` returns `None` exactly when no pair has the name, else the value of the first pair with that name |
| `QueryString.Delete` | src/plugin.ts:260 | `delete` leaves no pair with the name and keeps every other pair |
| `QueryString.DeleteConcat` | src/plugin.ts:260-261 | `delete` works pair by pair over concatenation, so the kept pairs stay in order, duplicates included, as `toString` serialises them |
| `QueryString.DeleteOne` | src/plugin.ts:260 | a single pair is dropped exactly when it carries the deleted name |
| `QueryString.DeleteKeepsOthers` | src/plugin.ts:260-261 | deleting one name leaves `get` of every other name unchanged |
| `Overlay.StripQueryResult` | src/plugin.ts:258-263 | after start-up the overlay's parameter is gone when its value was non-empty and kept otherwise; every other parameter reads as before |
| `Overlay.SplashOverlay.constructor` | src/plugin.ts:198-202 | the object starts with `hidden` equal to `param === "false"`, `renderedAt` the current time and the configured minimum duration |
| `Overlay.SplashOverlay.Show` | src/plugin.ts:209-214 | makes the element visible if it exists, and does nothing otherwise |
| `Overlay.SplashOverlay.Hide` | src/plugin.ts:215-231 | with no element, nothing changes; otherwise `hidden` becomes true before the wait, the wait is `RemainingTime(minDurationMs, now - renderedAt)`, neither node is touched yet, and the removal time is `now + wait + 200` |
| `Overlay.RemainingTime` | src/plugin.ts:227-228 | the wait is the least value that is at least 0 and at least `minDurationMs - elapsed` |
| `Overlay.RemainingTimeBounds` | src/plugin.ts:222-230 | for non-negative elapsed time and minimum, the wait lies in `[0, minDurationMs]` and is 0 exactly when the minimum has already passed |
| `Overlay.SplashOverlay.Remove` | src/plugin.ts:241-249 | deletes both nodes when both exist, and neither otherwise |
| `Overlay.SplashOverlay.DetachTime` | src/plugin.ts:222-239 | the nodes go no earlier than `renderedAt + minDurationMs` plus the 200 ms fade, and no earlier than the fade after the call |
| `Overlay.RunInlineScript` | src/plugin.ts:191-264 | start-up: the object is stored in `__VPSS__`; if the parameter is `"false"` the overlay is removed (both nodes or neither) and never shown, otherwise it is shown; the address is `StripQuery` of the old one |
| `Runtime.Guard` | src/runtime.ts:48-66 | the guard logs at most one error, calls `hide` at most once and never does both, and calls at most the three accessors |
| `Runtime.HideSplashScreen` | src/runtime.ts:48-66 | the call behaves as `Guard` of `window.__RPSS__`; after a call that reached `hide`, the object is hidden and a second call returns at once; a call that did not reach it changes nothing; on every path only `hidden` may change, so both nodes and `visible` stay until the fade ends, and the removal time is `now + wait + 200` |
| `Runtime.MissingGlobalLogsError` | src/runtime.ts:49-63 | with no global, the stand-in `{ id: 'rpss' }` has no accessors: one error, no accessor call, no `hide` |
| `Runtime.HiddenReturnsAtOnce` | src/runtime.ts:52 | an object already hidden gives an immediate return with no accessor call, no error and no `hide` |
| `Runtime.MissingNodeLogsOnce` | src/runtime.ts:54-63 | if the element, the styles or the script is missing, exactly one error and no `hide` |
| `Runtime.AllFoundCallsHide` | src/runtime.ts:54-65 | with all three nodes found, all three accessors are called, no error is logged and `hide` is called once when defined |
| `Runtime.GeneratedObjectNeverHides` | src/runtime.ts:56-58 | the object the plugin generates (src/plugin.ts:198-250) has no `getScript`, so the helper never calls its `hide`, and logs an error whenever it is not yet hidden |
| `Runtime.PluginPageTakesErrorPath` | src/runtime.ts:49 | a page whose only global is the plugin's `__VPSS__` makes the helper see no object and log one error |

## Left out

- `apply` and the bundler hooks (src/plugin.ts:37-104) are host plumbing. The model has no host, so it does not capture that registering both hooks can transform one asset twice.
- File system and `path.resolve`. Each template file is a field of `Templates`. The logo candidates are a map from candidate index (0 to 2) to contents, where presence means the path exists. Path strings and `path.resolve` (src/plugin.ts:120-122, 270-274) are not modelled.
- Text.ReplaceFirst treats the replacement literally. JavaScript's special `$` patterns (`$&`, `$$`, `` $` ``, `$'`) are not interpreted in any replacement: the colours, the style block (template CSS) and the overlay fragment (logo file contents, loader HTML, script text), so a logo holding `$&` or `$'` gives a different output in the source.
- Read errors: `fs.readFileSync` throws when a template file is missing under `node_modules/rspack-plugin-splash-screen/src` (src/plugin.ts:270-274), or when a logo candidate exists but cannot be read, such as a directory (src/plugin.ts:126-127). `TransformHtml` is total and models neither exception.
- The inline script's JavaScript text is abstract. `Templates.scriptBeforeDuration` and `Templates.scriptAfterDuration` stand for its fixed text around the minimum-duration literal. What the script does is modelled by `Overlay`.
- `${minDurationMs || 0}`: the model holds integers only, where `|| 0` changes nothing. NaN, fractions and the exponent form of very large numbers are not modelled.
- Console output is modelled only as the `warned` flag and the `errorsLogged` count, without message text. The list of paths in the warning is also left out.
- Browser timing: `Date`, `setTimeout`, `element.animate` and `onfinish`. Time is an integer input, `Hide` covers the part of `hide` up to its wait, and the fade plus `remove()` is one later step (`Remove`, at `DetachTime`). Interleavings of other callers during the wait are represented only through `hidden` being set before it.
- `URL` parsing and `url.search` re-serialisation. The query is a list of name/value pairs, and `history.replaceState` is the returned address.
- Overlay.SplashOverlay.Show does not model the element's initial CSS visibility. `visible` means only that `show` has made the element visible.
- CSS, markup and template contents, z-index and opacity are not modelled.
- `src/assets.ts`, `playwright.config.ts`, `rslib.config.ts` and `example/rsbuild.config.ts` hold no logic. `tests/splash-screen.spec.ts` is browser end-to-end testing.
