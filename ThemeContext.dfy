/**
 * The theme provider (ThemeContext.tsx): it holds the current site, starting
 * at `software`, and whenever the site changes it swaps the body's
 * `theme-<site>` class and writes the site's CSS variables onto the body.
 */
module ThemeContext {
  import opened Wrappers
  import opened Strings
  import opened SiteRegistry
  import opened Dom

  const InitialSite: SiteKey := Software

  function ThemeClass(k: SiteKey): string {
    "theme-" + KeyName(k)
  }

  /** The four classes the effect removes before adding the current one. */
  function ThemeClasses(): set<string> {
    {ThemeClass(Software), ThemeClass(Guidance), ThemeClass(ItSupport), ThemeClass(FlowSupport)}
  }

  /** The class list after the effect has run for `site`. */
  function ThemedClasses(classes: set<string>, site: SiteKey): set<string> {
    classes - ThemeClasses() + {ThemeClass(site)}
  }

  /** After the effect exactly one theme class is present, the current
      site's, and every other class is kept. */
  lemma ExactlyOneThemeClass(classes: set<string>, site: SiteKey)
    ensures ThemedClasses(classes, site) * ThemeClasses() == {ThemeClass(site)}
    ensures forall c :: c !in ThemeClasses() ==> (c in ThemedClasses(classes, site) <==> c in classes)
  {
  }

  /** `${n}px` when `n` is truthy, else the default. */
  function PxOr(o: Option<nat>, default: string): string {
    if o.Some? && o.value != 0 then NatToString(o.value) + "px" else default
  }

  /** `if (value) setProperty(name, value)`. */
  function SetIfTruthy(style: map<string, string>, name: string, o: Option<string>): map<string, string> {
    if o.Some? && o.value != "" then SetProp(style, name, o.value) else style
  }

  /** The value a truthy optional size takes as a CSS length, or `None`. */
  function PxOpt(o: Option<nat>): Option<string> {
    if o.Some? && o.value != 0 then Some(NatToString(o.value) + "px") else None
  }

  /** The body's custom properties after the writes of the effect that come
      before the background, in source order. */
  function ConfigWrites(style: map<string, string>, cfg: SiteConfig): map<string, string> {
    var s1 := SetProp(style, "--header-height", PxOr(cfg.headerHeight, "64px"));
    var s2 := SetIfTruthy(s1, "--primary", Some(cfg.primaryColor));
    var s3 := SetIfTruthy(s2, "--header-bg", cfg.headerBgShade);
    var s4 := SetIfTruthy(s3, "--header-text", cfg.headerTextColor);
    var s5 := SetIfTruthy(s4, "--logo-width", PxOpt(cfg.logoWidth));
    SetIfTruthy(s5, "--logo-height", PxOpt(cfg.logoHeight))
  }

  /** The body's custom properties after the effect has run with `cfg`. */
  function ThemedStyle(style: map<string, string>, cfg: SiteConfig): map<string, string> {
    var s6 := ConfigWrites(style, cfg);
    var bg := GetProp(s6, "--body-bg");
    SetProp(s6, "--body-bg", if bg != "" then bg else "#f7f7f7")
  }

  function ThemeVariables(): set<string> {
    {"--header-height", "--primary", "--header-bg", "--header-text", "--logo-width", "--logo-height", "--body-bg"}
  }

  /** Property by property, what the body holds after the effect: the header
      height (or 64px), each colour and logo size when the configuration's
      value is truthy and otherwise the previous value, a background that
      keeps a non-empty previous value and is otherwise `#f7f7f7`, and the
      previous value of every variable the effect does not name. */
  function ThemedValue(style: map<string, string>, cfg: SiteConfig, name: string): string {
    if name == "--header-height" then PxOr(cfg.headerHeight, "64px")
    else if name == "--primary" then StrOr(Some(cfg.primaryColor), GetProp(style, name))
    else if name == "--header-bg" then StrOr(cfg.headerBgShade, GetProp(style, name))
    else if name == "--header-text" then StrOr(cfg.headerTextColor, GetProp(style, name))
    else if name == "--logo-width" then StrOr(PxOpt(cfg.logoWidth), GetProp(style, name))
    else if name == "--logo-height" then StrOr(PxOpt(cfg.logoHeight), GetProp(style, name))
    else if name == "--body-bg" then (if GetProp(style, name) != "" then GetProp(style, name) else "#f7f7f7")
    else GetProp(style, name)
  }

  lemma GetSetProp(style: map<string, string>, n: string, v: string, m: string)
    ensures GetProp(SetProp(style, n, v), m) == if m == n then v else GetProp(style, m)
  {
  }

  lemma GetSetIfTruthy(style: map<string, string>, n: string, o: Option<string>, m: string)
    ensures GetProp(SetIfTruthy(style, n, o), m) == if m == n then StrOr(o, GetProp(style, m)) else GetProp(style, m)
  {
  }

  /** Each variable after the effect has the value `ThemedValue` gives it. */
  lemma {:induction false} ThemedStyleAt(style: map<string, string>, cfg: SiteConfig, name: string)
    ensures GetProp(ThemedStyle(style, cfg), name) == ThemedValue(style, cfg, name)
  {
    var s1 := SetProp(style, "--header-height", PxOr(cfg.headerHeight, "64px"));
    var s2 := SetIfTruthy(s1, "--primary", Some(cfg.primaryColor));
    var s3 := SetIfTruthy(s2, "--header-bg", cfg.headerBgShade);
    var s4 := SetIfTruthy(s3, "--header-text", cfg.headerTextColor);
    var s5 := SetIfTruthy(s4, "--logo-width", PxOpt(cfg.logoWidth));
    var s6 := SetIfTruthy(s5, "--logo-height", PxOpt(cfg.logoHeight));
    assert s6 == ConfigWrites(style, cfg);
    GetSetProp(style, "--header-height", PxOr(cfg.headerHeight, "64px"), name);
    GetSetIfTruthy(s1, "--primary", Some(cfg.primaryColor), name);
    GetSetIfTruthy(s2, "--header-bg", cfg.headerBgShade, name);
    GetSetIfTruthy(s3, "--header-text", cfg.headerTextColor, name);
    GetSetIfTruthy(s4, "--logo-width", PxOpt(cfg.logoWidth), name);
    GetSetIfTruthy(s5, "--logo-height", PxOpt(cfg.logoHeight), name);
    GetSetIfTruthy(s5, "--logo-height", PxOpt(cfg.logoHeight), "--body-bg");
    GetSetIfTruthy(s4, "--logo-width", PxOpt(cfg.logoWidth), "--body-bg");
    GetSetIfTruthy(s3, "--header-text", cfg.headerTextColor, "--body-bg");
    GetSetIfTruthy(s2, "--header-bg", cfg.headerBgShade, "--body-bg");
    GetSetIfTruthy(s1, "--primary", Some(cfg.primaryColor), "--body-bg");
    GetSetProp(style, "--header-height", PxOr(cfg.headerHeight, "64px"), "--body-bg");
    var bg := GetProp(s6, "--body-bg");
    GetSetProp(s6, "--body-bg", if bg != "" then bg else "#f7f7f7", name);
  }

  /** The DOM never stores an empty property value. */
  predicate NoEmptyValues(style: map<string, string>) {
    forall n :: n in style ==> style[n] != ""
  }

  lemma ThemedStyleNoEmpty(style: map<string, string>, cfg: SiteConfig)
    requires NoEmptyValues(style)
    ensures NoEmptyValues(ThemedStyle(style, cfg))
  {
  }

  /** A second run gives every variable the value the first run gave it. */
  lemma ThemedStyleStableAt(style: map<string, string>, cfg: SiteConfig, name: string)
    ensures GetProp(ThemedStyle(ThemedStyle(style, cfg), cfg), name) == GetProp(ThemedStyle(style, cfg), name)
  {
    var once := ThemedStyle(style, cfg);
    ThemedStyleAt(style, cfg, name);
    ThemedStyleAt(once, cfg, name);
    ThemedValueStable(style, once, cfg, name);
  }

  /** A variable that already holds the value the effect gives it keeps it. */
  lemma ThemedValueStable(style: map<string, string>, once: map<string, string>, cfg: SiteConfig, name: string)
    requires GetProp(once, name) == ThemedValue(style, cfg, name)
    ensures ThemedValue(once, cfg, name) == ThemedValue(style, cfg, name)
  {
  }

  /** Two property maps without empty values that read the same everywhere are equal. */
  lemma SameProps(a: map<string, string>, b: map<string, string>)
    requires NoEmptyValues(a) && NoEmptyValues(b)
    requires forall n :: GetProp(a, n) == GetProp(b, n)
    ensures a == b
  {
    forall n | n in a ensures n in b && a[n] == b[n] {
      assert GetProp(a, n) == GetProp(b, n);
    }
    forall n | n in b ensures n in a {
      assert GetProp(a, n) == GetProp(b, n);
    }
  }

  /** Running the effect twice for the same configuration leaves the body as
      after the first run; in particular `--body-bg` is not changed again. */
  lemma {:induction false} ThemedStyleIdempotent(style: map<string, string>, cfg: SiteConfig)
    requires NoEmptyValues(style)
    ensures ThemedStyle(ThemedStyle(style, cfg), cfg) == ThemedStyle(style, cfg)
  {
    var once := ThemedStyle(style, cfg);
    ThemedStyleNoEmpty(style, cfg);
    ThemedStyleNoEmpty(once, cfg);
    forall n ensures GetProp(ThemedStyle(once, cfg), n) == GetProp(once, n) {
      ThemedStyleStableAt(style, cfg, n);
    }
    SameProps(ThemedStyle(once, cfg), once);
  }

  /** The provider: the current site and the document body it themes. */
  class ThemeProvider {
    var site: SiteKey
    const body: Body

    /** Mounting: the site starts as `software` and the effect runs once. */
    constructor (body: Body)
      modifies body
      ensures this.body == body && site == InitialSite
      ensures body.classes == ThemedClasses(old(body.classes), InitialSite)
      ensures body.style == ThemedStyle(old(body.style), Sites(InitialSite))
      ensures body.paddingTop == old(body.paddingTop)
    {
      this.body := body;
      site := InitialSite;
      new;
      ApplyTheme();
    }

    /** The `useEffect` keyed on `site`. */
    method ApplyTheme()
      modifies body
      ensures body.classes == ThemedClasses(old(body.classes), site)
      ensures body.style == ThemedStyle(old(body.style), Sites(site))
      ensures body.paddingTop == old(body.paddingTop)
    {
      body.RemoveClasses(ThemeClasses());
      body.AddClass(ThemeClass(site));
      ApplyStyle(Sites(site));
    }

    /** The property writes of the effect for configuration `cfg`. */
    method ApplyStyle(cfg: SiteConfig)
      modifies body
      ensures body.style == ThemedStyle(old(body.style), cfg)
      ensures body.classes == old(body.classes) && body.paddingTop == old(body.paddingTop)
    {
      ApplyConfig(cfg);
      var bg := body.GetPropertyValue("--body-bg");
      body.SetProperty("--body-bg", if bg != "" then bg else "#f7f7f7");
    }

    /** The property writes of the effect before the background. */
    method ApplyConfig(cfg: SiteConfig)
      modifies body
      ensures body.style == ConfigWrites(old(body.style), cfg)
      ensures body.classes == old(body.classes) && body.paddingTop == old(body.paddingTop)
    {
      var headerHeightPx := if cfg.headerHeight.Some? && cfg.headerHeight.value != 0
        then NatToString(cfg.headerHeight.value) + "px" else "64px";
      body.SetProperty("--header-height", headerHeightPx);
      SetWhenTruthy("--primary", Some(cfg.primaryColor));
      SetWhenTruthy("--header-bg", cfg.headerBgShade);
      SetWhenTruthy("--header-text", cfg.headerTextColor);
      SetWhenTruthy("--logo-width", PxOpt(cfg.logoWidth));
      SetWhenTruthy("--logo-height", PxOpt(cfg.logoHeight));
    }

    /** `if (value) body.style.setProperty(name, value)`. */
    method SetWhenTruthy(name: string, value: Option<string>)
      modifies body
      ensures body.style == SetIfTruthy(old(body.style), name, value)
      ensures body.classes == old(body.classes) && body.paddingTop == old(body.paddingTop)
    {
      if value.Some? && value.value != "" {
        body.SetProperty(name, value.value);
      }
    }

    /** `setSite(s)`: React re-runs the effect only when the value changes. */
    method SetSite(s: SiteKey)
      modifies this, body
      ensures site == s
      ensures old(site) != s ==>
        body.classes == ThemedClasses(old(body.classes), s) && body.style == ThemedStyle(old(body.style), Sites(s))
      ensures old(site) == s ==> body.classes == old(body.classes) && body.style == old(body.style)
      ensures body.paddingTop == old(body.paddingTop)
    {
      if s != site {
        site := s;
        ApplyTheme();
      }
    }
  }
}
