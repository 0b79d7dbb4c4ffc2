/**
 * Build-time half of the splash screen: the plugin's options, the style
 * block and overlay fragment it builds, and the HTML transformation that
 * splices them into a page.
 */
module Plugin {
  import opened Wrappers
  import opened Text
  import Decimal

  datatype LoaderType = Line | Dots | NoLoader

  /** The options as the caller passes them; a missing or `null` option is `None`. */
  datatype PluginOptions = PluginOptions(
    logoSrc: Option<string>,
    splashBg: Option<string>,
    loaderBg: Option<string>,
    loaderType: Option<LoaderType>,
    minDurationMs: Option<int>)

  /** The options after validation, with every default filled in. */
  datatype Config = Config(
    logoSrc: string,
    minDurationMs: int,
    loaderType: LoaderType,
    loaderBg: string,
    splashBg: string)

  const LogoRequiredMessage := "The `logoSrc` option is required for rspack-plugin-splash-screen!"
  const DefaultMinDurationMs := 0
  const DefaultLoaderType := Line
  const DefaultLoaderBg := "#0072f5"
  const DefaultSplashBg := "#ffffff"
  const DefaultPublicDir := "public"

  /** JavaScript truthiness of an optional string: present and not empty. */
  predicate Truthy(s: Option<string>) {
    s.Some? && s.value != ""
  }

  /**
   * What the constructor does with its argument: it throws when `logoSrc`
   * is falsy, and otherwise fills each option that is missing (and only
   * those: `??`) with its default.
   */
  function ResolveOptions(o: PluginOptions): (r: Result<Config, string>)
    ensures r.Failure? <==> !Truthy(o.logoSrc)
    ensures r.Failure? ==> r.error == LogoRequiredMessage
    ensures r.Success? ==> r.value.logoSrc == o.logoSrc.value
    ensures r.Success? ==> r.value.minDurationMs == if o.minDurationMs.Some? then o.minDurationMs.value else DefaultMinDurationMs
    ensures r.Success? ==> r.value.loaderType == if o.loaderType.Some? then o.loaderType.value else DefaultLoaderType
    ensures r.Success? ==> r.value.loaderBg == if o.loaderBg.Some? then o.loaderBg.value else DefaultLoaderBg
    ensures r.Success? ==> r.value.splashBg == if o.splashBg.Some? then o.splashBg.value else DefaultSplashBg
  {
    if !Truthy(o.logoSrc) then Failure(LogoRequiredMessage)
    else Success(Config(
      o.logoSrc.value,
      o.minDurationMs.GetOr(DefaultMinDurationMs),
      o.loaderType.GetOr(DefaultLoaderType),
      o.loaderBg.GetOr(DefaultLoaderBg),
      o.splashBg.GetOr(DefaultSplashBg)))
  }

  /**
   * The fixed texts the transformation reads: the plugin's template files
   * (`styles.css` and the CSS and HTML file of each loader) and the inline
   * script's text before and after its minimum-duration literal.
   */
  datatype Templates = Templates(
    baseCss: string,
    lineCss: string,
    dotsCss: string,
    lineHtml: string,
    dotsHtml: string,
    scriptBeforeDuration: string,
    scriptAfterDuration: string)

  function LoaderCss(t: Templates, k: LoaderType): string {
    match k
    case Line => t.lineCss
    case Dots => t.dotsCss
    case NoLoader => ""
  }

  function LoaderHtml(t: Templates, k: LoaderType): string {
    match k
    case Line => t.lineHtml
    case Dots => t.dotsHtml
    case NoLoader => ""
  }

  /** The id of the overlay element and the stem of its style element's id. */
  const SplashId := "vpss"
  const StyleOpen := "<style id=\"" + SplashId + "-style\">"
  const StyleClose := "</style>"
  const SplashMarker := "/*BG_SPLASH*/"
  const LoaderMarker := "/*BG_LOADER*/"
  const HeadClose := "</head>"
  const BodyClose := "</body>"

  /** The fixed pieces of the overlay fragment's template literal, layout whitespace included. */
  const SplashOpen := "\n    <div id=\"" + SplashId + "\">\n      <div class=\"" + SplashId + "-logo\">"
  const LogoClose := "</div>\n      "
  const ScriptOpen := "\n    </div>\n    <script>"
  const ScriptClose := "</script>\n  "

  /** The style block: base CSS, then loader CSS, each with its first colour marker filled in. */
  function StyleBlock(cfg: Config, t: Templates): string {
    StyleOpen
      + ReplaceFirst(t.baseCss, SplashMarker, cfg.splashBg)
      + ReplaceFirst(LoaderCss(t, cfg.loaderType), LoaderMarker, cfg.loaderBg)
      + StyleClose
  }

  /** `${minDurationMs || 0}`: the literal the inline script assigns to its `minDurationMs`. */
  function DurationLiteral(minDurationMs: int): string {
    Decimal.IntToDecimal(minDurationMs)
  }

  /** `splashTemplate`: the overlay markup (logo, then loader) followed by the inline script. */
  function SplashTemplate(logoHtml: string, loaderType: LoaderType, minDurationMs: int, t: Templates): string {
    SplashOpen + logoHtml + LogoClose + LoaderHtml(t, loaderType)
      + ScriptOpen + t.scriptBeforeDuration + DurationLiteral(minDurationMs) + t.scriptAfterDuration
      + ScriptClose
  }

  /** The number of places tried for the logo, in this order. */
  const CandidateCount := 3

  /**
   * The logo candidates as the file system shows them: index `i` is in the
   * map exactly when the `i`-th candidate path exists, with its contents.
   */
  type LogoFiles = map<nat, string>

  /** The first existing candidate at or after `k`. */
  function FirstExisting(files: LogoFiles, k: nat): (r: Option<nat>)
    decreases CandidateCount - k
    ensures r.Some? ==> k <= r.value < CandidateCount && r.value in files
    ensures r.Some? ==> forall j :: k <= j < r.value ==> j !in files
    ensures r.None? ==> forall j :: k <= j < CandidateCount ==> j !in files
  {
    if k >= CandidateCount then None
    else if k in files then Some(k)
    else FirstExisting(files, k + 1)
  }

  /** The logo text: the contents of the first existing candidate, or empty. */
  function LogoHtml(files: LogoFiles): string {
    match FirstExisting(files, 0)
    case Some(i) => files[i]
    case None => ""
  }

  /** The whole transformation of one HTML asset. */
  function Transform(cfg: Config, t: Templates, files: LogoFiles, html: string): string {
    var styles := StyleBlock(cfg, t);
    var splash := SplashTemplate(LogoHtml(files), cfg.loaderType, cfg.minDurationMs, t);
    InsertBefore(InsertBefore(html, HeadClose, styles), BodyClose, splash)
  }

  /**
   * The logo lookup loop: probe the candidates in order, read the first that
   * exists and stop. `read` is the one candidate read, `probes` the number of
   * existence checks made, so no later candidate is examined.
   */
  method ResolveLogo(files: LogoFiles) returns (logoHtml: string, read: Option<nat>, probes: nat)
    ensures read == FirstExisting(files, 0)
    ensures logoHtml == LogoHtml(files)
    ensures probes == if read.Some? then read.value + 1 else CandidateCount
  {
    logoHtml, read, probes := "", None, 0;
    for i := 0 to CandidateCount
      invariant probes == i && read.None? && logoHtml == ""
      invariant forall j :: 0 <= j < i ==> j !in files
    {
      probes := probes + 1;
      if i in files {
        logoHtml := files[i];
        read := Some(i);
        break;
      }
    }
  }

  class SplashScreenPlugin {
    const options: Config
    const publicDir: string

    /** Stores options that have already passed `ResolveOptions`. */
    constructor (config: Config)
      ensures options == config && publicDir == DefaultPublicDir
    {
      options := config;
      publicDir := DefaultPublicDir;
    }

    /**
     * `transformHtml`: builds the style block and overlay fragment and puts
     * them before the first `</head>` and the first `</body>`. `warned` is
     * the console warning about the logo.
     */
    method TransformHtml(html: string, t: Templates, files: LogoFiles) returns (out: string, warned: bool)
      ensures out == Transform(options, t, files, html)
      ensures warned <==> LogoHtml(files) == ""
    {
      var baseStyles := t.baseCss;
      var loaderStyles := "";
      if options.loaderType == Line {
        loaderStyles := t.lineCss;
      } else if options.loaderType == Dots {
        loaderStyles := t.dotsCss;
      }
      var logoHtml, _, _ := ResolveLogo(files);
      warned := logoHtml == "";
      var splash := SplashTemplate(logoHtml, options.loaderType, options.minDurationMs, t);
      var b := ReplaceFirst(baseStyles, SplashMarker, options.splashBg);
      var l := ReplaceFirst(loaderStyles, LoaderMarker, options.loaderBg);
      var styles := StyleOpen + b + l + StyleClose;
      out := InsertBefore(InsertBefore(html, HeadClose, styles), BodyClose, splash);
    }
  }

  /**
   * `new RspackSplashScreenPlugin(options)` (and the `splashScreen` factory):
   * a plugin holding the resolved options, or the error it throws.
   */
  method NewPlugin(o: PluginOptions) returns (r: Result<SplashScreenPlugin, string>)
    ensures r.Failure? <==> !Truthy(o.logoSrc)
    ensures r.Failure? ==> r.error == LogoRequiredMessage
    ensures r.Success? ==> fresh(r.value) && ResolveOptions(o) == Success(r.value.options)
    ensures r.Success? ==> r.value.publicDir == DefaultPublicDir
  {
    match ResolveOptions(o)
    case Failure(e) =>
      r := Failure(e);
    case Success(cfg) =>
      var p := new SplashScreenPlugin(cfg);
      r := Success(p);
  }

  // ---------------------------------------------------------------------
  // Properties of the transformation

  /**
   * Where the two fragments end up, stated directly: each goes before the
   * first occurrence of its closing tag in the original page, and a page
   * without that tag does not get it.
   */
  function Spliced(html: string, styles: string, splash: string): string {
    match (IndexOf(html, HeadClose), IndexOf(html, BodyClose))
    case (Some(h), Some(b)) =>
      if h <= b then html[..h] + styles + html[h..b] + splash + html[b..]
      else html[..b] + splash + html[b..h] + styles + html[h..]
    case (Some(h), None) => html[..h] + styles + html[h..]
    case (None, Some(b)) => html[..b] + splash + html[b..]
    case (None, None) => html
  }

  lemma ClosingTagsAreTagLike()
    ensures TagLike(HeadClose) && TagLike(BodyClose)
  {
  }

  lemma StyleBlockOpensTag(cfg: Config, t: Templates)
    ensures |StyleBlock(cfg, t)| > 0 && StyleBlock(cfg, t)[0] == '<'
  {
  }

  lemma OpensAtOccurrence(s: string, p: string, i: nat)
    requires OccursAt(s, p, i) && |p| > 0
    ensures s[i] == p[0]
  {
  }

  /** Both tags present, `</head>` first: the style block goes before it, the overlay before `</body>`. */
  lemma SplicedHeadFirst(html: string, styles: string, splash: string, h: nat, b: nat)
    requires IndexOf(html, HeadClose) == Some(h) && h <= b
    requires IndexOf(html[..h] + styles + html[h..], BodyClose) == Some(b + |styles|)
    requires b <= |html|
    ensures InsertBefore(InsertBefore(html, HeadClose, styles), BodyClose, splash)
      == html[..h] + styles + html[h..b] + splash + html[b..]
  {
    InsertBeforeAt(html, HeadClose, styles, h);
    var mid := html[..h] + styles + html[h..];
    InsertBeforeAt(mid, BodyClose, splash, b + |styles|);
    assert mid[..b + |styles|] == html[..h] + styles + html[h..b];
    assert mid[b + |styles|..] == html[b..];
  }

  /** Both tags present, `</body>` first: the overlay goes before it, the style block before `</head>`. */
  lemma SplicedBodyFirst(html: string, styles: string, splash: string, h: nat, b: nat)
    requires IndexOf(html, HeadClose) == Some(h) && b < h
    requires IndexOf(html[..h] + styles + html[h..], BodyClose) == Some(b)
    ensures InsertBefore(InsertBefore(html, HeadClose, styles), BodyClose, splash)
      == html[..b] + splash + html[b..h] + styles + html[h..]
  {
    InsertBeforeAt(html, HeadClose, styles, h);
    var mid := html[..h] + styles + html[h..];
    InsertBeforeAt(mid, BodyClose, splash, b);
    assert mid[..b] == html[..b];
    assert mid[b..] == html[b..h] + styles + html[h..];
  }

  /**
   * Inserting a fragment that opens with `<` and holds no `</body>` before
   * `</head>` cannot create or destroy a `</body>`, so the two insertions
   * together are exactly `Spliced`.
   */
  lemma InsertionsAreSpliced(html: string, styles: string, splash: string)
    requires |styles| > 0 && styles[0] == '<'
    requires !Contains(styles, BodyClose)
    ensures InsertBefore(InsertBefore(html, HeadClose, styles), BodyClose, splash) == Spliced(html, styles, splash)
  {
    ClosingTagsAreTagLike();
    match IndexOf(html, HeadClose) {
      case None =>
        match IndexOf(html, BodyClose) {
          case None =>
          case Some(b) =>
            InsertBeforeAt(html, BodyClose, splash, b);
        }
      case Some(h) =>
        OpensAtOccurrence(html, HeadClose, h);
        IndexOfAfterInsert(html, styles, BodyClose, h);
        match IndexOf(html, BodyClose) {
          case None =>
            InsertBeforeAt(html, HeadClose, styles, h);
          case Some(b) =>
            if h <= b {
              OpensAfterHead(html, h, b);
              SplicedHeadFirst(html, styles, splash, h, b);
            } else {
              SplicedBodyFirst(html, styles, splash, h, b);
            }
        }
    }
  }

  /** The transformation is exactly `Spliced` whenever the style block holds no `</body>`. */
  lemma TransformIsSpliced(cfg: Config, t: Templates, files: LogoFiles, html: string)
    requires !Contains(StyleBlock(cfg, t), BodyClose)
    ensures Transform(cfg, t, files, html) ==
      Spliced(html, StyleBlock(cfg, t), SplashTemplate(LogoHtml(files), cfg.loaderType, cfg.minDurationMs, t))
  {
    StyleBlockOpensTag(cfg, t);
    InsertionsAreSpliced(html, StyleBlock(cfg, t), SplashTemplate(LogoHtml(files), cfg.loaderType, cfg.minDurationMs, t));
  }

  /** `</head>` and `</body>` never occur at the same index. */
  lemma OpensAfterHead(html: string, h: nat, b: nat)
    requires OccursAt(html, HeadClose, h) && OccursAt(html, BodyClose, b)
    ensures h != b
  {
  }

  /**
   * When the page has both closing tags, the output is longer than the
   * input by exactly the style block and the overlay fragment.
   */
  lemma TransformLength(cfg: Config, t: Templates, files: LogoFiles, html: string)
    requires Contains(html, HeadClose) && Contains(html, BodyClose)
    ensures |Transform(cfg, t, files, html)| ==
      |html| + |StyleBlock(cfg, t)| + |SplashTemplate(LogoHtml(files), cfg.loaderType, cfg.minDurationMs, t)|
  {
    var styles := StyleBlock(cfg, t);
    var splash := SplashTemplate(LogoHtml(files), cfg.loaderType, cfg.minDurationMs, t);
    var h := IndexOf(html, HeadClose).value;
    ClosingTagsAreTagLike();
    InsertBeforeAt(html, HeadClose, styles, h);
    OpensAtOccurrence(html, HeadClose, h);
    StyleBlockOpensTag(cfg, t);
    ContainsAfterInsert(html, styles, BodyClose, h);
    ReplaceFirstLength(html, HeadClose, styles + HeadClose);
    ReplaceFirstLength(html[..h] + styles + html[h..], BodyClose, splash + BodyClose);
  }

  /**
   * The style block fills in the first colour marker of each stylesheet and
   * nothing else: the base CSS with `splashBg` at its first splash marker,
   * then the loader CSS with `loaderBg` at its first loader marker.
   */
  lemma StyleBlockFillsFirstMarkers(cfg: Config, t: Templates, i: nat, k: nat)
    requires OccursAt(t.baseCss, SplashMarker, i)
    requires forall j :: 0 <= j < i ==> !OccursAt(t.baseCss, SplashMarker, j)
    requires OccursAt(LoaderCss(t, cfg.loaderType), LoaderMarker, k)
    requires forall j :: 0 <= j < k ==> !OccursAt(LoaderCss(t, cfg.loaderType), LoaderMarker, j)
    ensures StyleBlock(cfg, t) ==
      StyleOpen
        + t.baseCss[..i] + cfg.splashBg + t.baseCss[i + |SplashMarker|..]
        + LoaderCss(t, cfg.loaderType)[..k] + cfg.loaderBg + LoaderCss(t, cfg.loaderType)[k + |LoaderMarker|..]
        + StyleClose
  {
    ReplaceFirstShape(t.baseCss, SplashMarker, cfg.splashBg, i);
    ReplaceFirstShape(LoaderCss(t, cfg.loaderType), LoaderMarker, cfg.loaderBg, k);
  }

  /** With loader kind `none` the loader templates play no part in the output. */
  lemma NoLoaderIgnoresLoaderTemplates(cfg: Config, t: Templates, t': Templates, files: LogoFiles, html: string)
    requires cfg.loaderType == NoLoader
    requires t.baseCss == t'.baseCss
    requires t.scriptBeforeDuration == t'.scriptBeforeDuration && t.scriptAfterDuration == t'.scriptAfterDuration
    ensures StyleBlock(cfg, t) == StyleOpen + ReplaceFirst(t.baseCss, SplashMarker, cfg.splashBg) + StyleClose
    ensures Transform(cfg, t, files, html) == Transform(cfg, t', files, html)
  {
  }

  /** Loader kind `line` reads only the line templates, `dots` only the dots templates. */
  lemma LoaderSelectsOwnPair(cfg: Config, t: Templates, files: LogoFiles, html: string)
    ensures cfg.loaderType == Line ==>
      Transform(cfg, t, files, html) == Transform(cfg, t.(dotsCss := "", dotsHtml := ""), files, html)
    ensures cfg.loaderType == Dots ==>
      Transform(cfg, t, files, html) == Transform(cfg, t.(lineCss := "", lineHtml := ""), files, html)
  {
  }

  /** The inline script reads back exactly the configured minimum duration. */
  lemma DurationLiteralRoundTrip(minDurationMs: int)
    ensures Decimal.ParseInt(DurationLiteral(minDurationMs)) == Some(minDurationMs)
  {
    Decimal.IntRoundTrip(minDurationMs);
  }

  /** The logo is the first existing candidate's contents, whatever the later candidates hold. */
  lemma LogoIgnoresLaterCandidates(files: LogoFiles, i: nat, later: LogoFiles)
    requires i < CandidateCount && i in files
    requires forall j :: 0 <= j < i ==> j !in files
    requires forall j :: j in later ==> j > i
    ensures LogoHtml(files) == files[i]
    ensures LogoHtml(files + later) == files[i]
  {
  }
}
