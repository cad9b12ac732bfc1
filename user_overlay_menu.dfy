/** The user overlay menu: where its "About" and "Rules" links point, the
    two preference toggles (compact view, day/night theme) with the cookies
    and events they leave behind, the toggles' labels, and the route sent to
    the desktop site.

    The browser's cookie store (cookies-js) is a `CookieJar` object, the
    clock is the current year passed in, and `querystring.stringify` is a
    function parameter. */
module UserMenu {
  import opened Js
  import opened Events

  /** The theme constants. The constants module is not part of this model;
      the proofs use only that the two differ. */
  const NIGHTMODE: JsValue := Str("nightmode")
  const DAYMODE: JsValue := Str("daymode")

  /** The site configuration fields the menu reads. */
  datatype Config = Config(reddit: string, https: JsValue, httpsProxy: JsValue)

  /** The request context: its path and its parsed query string. */
  datatype Ctx = Ctx(url: string, query: JsValue)

  datatype MenuItem = MenuItem(url: string, title: string)

  /** The props the menu reads; `compact` is a required boolean prop. */
  datatype MenuProps = MenuProps(compact: bool, theme: JsValue, config: Config, ctx: Ctx)

  /** A stored cookie: its value, the year it expires and its secure flag. */
  datatype Cookie = Cookie(value: JsValue, expiresYear: int, secure: JsValue)

  /** Help and wiki pages are linked as they are; every other item is
      prefixed with the site's address. */
  predicate KeepsOwnHost(url: string) {
    Contains(url, "/help") || Contains(url, "/wiki")
  }

  /** `menuItemUrl(item, config)`. */
  function MenuItemUrl(item: MenuItem, config: Config): (r: string)
    ensures KeepsOwnHost(item.url) ==> r == item.url
    ensures !KeepsOwnHost(item.url) ==> r == config.reddit + item.url
  {
    if IndexOf(item.url, "/help") != -1 || IndexOf(item.url, "/wiki") != -1 then item.url
    else config.reddit + item.url
  }

  /** The link always ends with the item's own URL, and is the URL itself or
      the site's address followed by it. */
  lemma MenuItemUrlEndsWithItem(item: MenuItem, config: Config)
    ensures var r := MenuItemUrl(item, config);
      && |item.url| <= |r|
      && r[|r| - |item.url|..] == item.url
      && (r == item.url || r[..|r| - |item.url|] == config.reddit)
  {
  }

  /** What `setCookie(name, value)` leaves in the cookie store: an undefined
      value expires the cookie; any other value is stored for two years with
      the secure flag `config.https || config.httpsProxy`. No other cookie changes. */
  function CookieUpdate(cookies: map<string, Cookie>, name: string, value: JsValue,
                        currentYear: int, config: Config): (r: map<string, Cookie>)
    ensures value == Undefined ==> name !in r
    ensures value != Undefined ==>
      name in r && r[name] == Cookie(value, currentYear + 2, Or(config.https, config.httpsProxy))
    ensures forall k :: k != name ==> (k in r <==> k in cookies)
    ensures forall k :: k != name && k in r ==> r[k] == cookies[k]
  {
    if value == Undefined then cookies - {name}
    else cookies[name := Cookie(value, currentYear + 2, Or(config.https, config.httpsProxy))]
  }

  /** The compact toggle's next value. */
  function NextCompact(compact: bool): (r: bool)
    ensures r != compact
  {
    !compact
  }

  /** The theme toggle: night mode goes to day mode, every other theme to night mode. */
  function NextTheme(theme: JsValue): (r: JsValue)
    ensures r == NIGHTMODE || r == DAYMODE
    ensures r == NIGHTMODE <==> theme != NIGHTMODE
  {
    if theme == NIGHTMODE then DAYMODE else NIGHTMODE
  }

  /** The value the compact toggle hands to `setCookie`. */
  function CompactCookieValue(newCompact: bool): JsValue {
    if newCompact then Bool(true) else Undefined
  }

  /** The value the theme toggle hands to `setCookie`. */
  function ThemeCookieValue(nextTheme: JsValue): JsValue {
    if nextTheme == NIGHTMODE then nextTheme else Undefined
  }

  /** What either toggle emits: its own event with the new value, then the
      hamburger click that closes the menu. */
  function ToggleEvents(name: EventName, newValue: JsValue): seq<Event> {
    [Event(name, newValue), Event(TopNavHamburgerClick, Undefined)]
  }

  /** Toggling compact view twice restores it. */
  lemma CompactToggleTwice(compact: bool)
    ensures NextCompact(NextCompact(compact)) == compact
  {
  }

  /** Toggling the theme twice restores exactly the two modes. */
  lemma ThemeToggle(theme: JsValue)
    ensures NextTheme(NextTheme(theme)) == theme <==> theme == NIGHTMODE || theme == DAYMODE
  {
  }

  /** After a compact toggle to `newCompact` the `compact` cookie exists iff
      the new value is true, and then holds true for two years. */
  lemma CompactCookieTracksPreference(cookies: map<string, Cookie>, newCompact: bool,
                                      currentYear: int, config: Config)
    ensures var r := CookieUpdate(cookies, "compact", CompactCookieValue(newCompact), currentYear, config);
      && ("compact" in r <==> newCompact)
      && (newCompact ==> r["compact"].value == Bool(true) && r["compact"].expiresYear == currentYear + 2)
  {
  }

  /** After a theme toggle to `nextTheme` the `theme` cookie exists iff the
      next theme is night mode, and then holds night mode. */
  lemma ThemeCookieTracksNightMode(cookies: map<string, Cookie>, nextTheme: JsValue,
                                   currentYear: int, config: Config)
    ensures var r := CookieUpdate(cookies, "theme", ThemeCookieValue(nextTheme), currentYear, config);
      && ("theme" in r <==> nextTheme == NIGHTMODE)
      && (nextTheme == NIGHTMODE ==> r["theme"].value == NIGHTMODE)
  {
  }

  /** The compact toggle's label: the view a click switches to. */
  function CompactToggleLabel(compact: bool): (r: string)
    ensures r == ViewName(NextCompact(compact)) + " view"
  {
    (if compact then "Card" else "Compact") + " view"
  }

  /** The theme toggle's label: the theme a click switches to. */
  function ThemeToggleLabel(theme: JsValue): (r: string)
    ensures r == ThemeName(NextTheme(theme)) + " Theme"
  {
    (if theme == NIGHTMODE then "Day" else "Night") + " Theme"
  }

  function ViewName(compact: bool): string {
    if compact then "Compact" else "Card"
  }

  function ThemeName(theme: JsValue): string {
    if theme == NIGHTMODE then "Night" else "Day"
  }

  /** The route `_gotoDesktopSiteClick` emits, or None where
      `Object.keys(ctx.query)` throws. The query string is appended only
      when the query has keys; the `|| {}` fallback never takes effect,
      since a value with keys is truthy. */
  function DesktopRoute(ctx: Ctx, stringify: JsValue -> string): (r: Option<string>)
    ensures r.None? <==> Nullish(ctx.query)
    ensures r.Some? && KeyCount(ctx.query) == 0 ==> r.value == ctx.url
    ensures r.Some? && KeyCount(ctx.query) > 0 ==> r.value == ctx.url + "?" + stringify(ctx.query)
  {
    if Nullish(ctx.query) then None
    else
      var query := if KeyCount(ctx.query) > 0 then "?" + stringify(Or(ctx.query, EmptyObject)) else "";
      Some(ctx.url + query)
  }

  /** The browser's cookie store, as cookies-js exposes it. */
  class CookieJar {
    var cookies: map<string, Cookie>

    constructor (initial: map<string, Cookie>)
      ensures cookies == initial
    {
      cookies := initial;
    }

    /** `cookies.set(name, value, {expires, secure})`. */
    method Set(name: string, value: JsValue, expiresYear: int, secure: JsValue)
      modifies this
      ensures cookies == old(cookies)[name := Cookie(value, expiresYear, secure)]
    {
      cookies := cookies[name := Cookie(value, expiresYear, secure)];
    }

    /** `cookies.expire(name)`. */
    method Expire(name: string)
      modifies this
      ensures cookies == old(cookies) - {name}
    {
      cookies := cookies - {name};
    }
  }

  /** The menu component: its `{compact, theme}` state, the application's
      event bus and the cookie store it writes to. */
  class UserOverlayMenu {
    const props: MenuProps
    const app: App
    const jar: CookieJar
    var compact: bool
    var theme: JsValue

    constructor (props: MenuProps, app: App, jar: CookieJar)
      ensures this.props == props && this.app == app && this.jar == jar
      ensures compact == props.compact && theme == props.theme
    {
      this.props := props;
      this.app := app;
      this.jar := jar;
      compact := props.compact;
      theme := props.theme;
    }

    /** `setCookie(name, value)` in the year `currentYear`. */
    method SetCookie(name: string, value: JsValue, currentYear: int)
      modifies jar
      ensures jar.cookies == CookieUpdate(old(jar.cookies), name, value, currentYear, props.config)
    {
      if value == Undefined {
        jar.Expire(name);
      } else {
        var config := props.config;
        jar.Set(name, value, currentYear + 2, Or(config.https, config.httpsProxy));
      }
    }

    /** `_viewPreferenceToggleClick()`: flip compact view, persist it, tell
        the application and close the menu. */
    method ViewPreferenceToggleClick(currentYear: int)
      modifies this, jar, app
      ensures compact == NextCompact(old(compact)) && theme == old(theme)
      ensures jar.cookies
           == CookieUpdate(old(jar.cookies), "compact", CompactCookieValue(compact), currentYear, props.config)
      ensures app.emitted == old(app.emitted) + ToggleEvents(CompactToggle, Bool(compact))
    {
      var newCompact := !compact;
      if newCompact {
        SetCookie("compact", Bool(true), currentYear);
      } else {
        SetCookie("compact", Undefined, currentYear);
      }
      app.Emit(CompactToggle, Bool(newCompact));
      app.Emit(TopNavHamburgerClick, Undefined);
      compact := newCompact;
    }

    /** `themePreferenceToggle()`: switch theme, persist night mode, tell the
        application and close the menu. */
    method ThemePreferenceToggle(currentYear: int)
      modifies this, jar, app
      ensures theme == NextTheme(old(theme)) && compact == old(compact)
      ensures jar.cookies
           == CookieUpdate(old(jar.cookies), "theme", ThemeCookieValue(theme), currentYear, props.config)
      ensures app.emitted == old(app.emitted) + ToggleEvents(ThemeToggle, theme)
    {
      var nextTheme := if theme == NIGHTMODE then DAYMODE else NIGHTMODE;
      if nextTheme == NIGHTMODE {
        SetCookie("theme", nextTheme, currentYear);
      } else {
        SetCookie("theme", Undefined, currentYear);
      }
      app.Emit(ThemeToggle, nextTheme);
      app.Emit(TopNavHamburgerClick, Undefined);
      theme := nextTheme;
    }

    /** `_gotoDesktopSiteClick(e)`: emit 'route:desktop' with the current
        path and query. Returns whether it threw instead. */
    method GotoDesktopSiteClick(stringify: JsValue -> string) returns (threw: bool)
      modifies app
      ensures threw <==> DesktopRoute(props.ctx, stringify).None?
      ensures !threw ==>
        app.emitted == old(app.emitted) + [Event(RouteDesktop, Str(DesktopRoute(props.ctx, stringify).value))]
      ensures threw ==> app.emitted == old(app.emitted)
    {
      var ctx := props.ctx;
      if Nullish(ctx.query) {
        return true;
      }
      var query := "";
      if KeyCount(ctx.query) > 0 {
        query := "?" + stringify(Or(ctx.query, EmptyObject));
      }
      app.Emit(RouteDesktop, Str(ctx.url + query));
      threw := false;
    }
  }
}
