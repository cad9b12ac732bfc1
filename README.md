# Subreddit "about" page and user overlay menu, modelled in Dafny

This project models two view components of a mobile web client for a
link-sharing site.

- **The subreddit "about" page** (`SubredditAboutPage`). Its static
  `populateData` decides how the page gets its data. On the client path it
  resolves at once with the data it was rendered with. On the server path it
  builds request options scoped to the subreddit. It then either hydrates the
  cache with a payload the props already carry, or issues one
  `subreddits.get` to the API gateway. The page holds `{data, loaded}` state.
  The constructor seeds that state from the props, `componentDidMount`
  adopts the resolved value, and `render` shows a loading indicator, a
  tracking pixel and the subreddit body.
- **The user overlay menu** (`UserOverlayMenu`). It decides which menu links
  keep their own URL and which get the site's address prefixed. It has two
  preference toggles, compact view and day/night theme. Each toggle flips
  component state, sets or expires a cookie, and emits two events. The menu
  also builds the route sent to the desktop site.

Files:

- `js.dfy` (module `Js`): the JavaScript value semantics the components
  rely on. It covers truthiness, `||`, reading and writing object fields,
  `Object.keys(v).length` and `String.prototype.indexOf`. `indexOf` is proved
  to return the first occurrence, or -1 exactly when there is none.
- `events.dfy` (module `Events`): the application's event bus, kept as the
  log of emitted events.
- `subreddit_about.dfy` (module `SubredditAbout`): `populateData` is a pure
  function. It returns the calls made on the api object plus the state of the
  returned promise: resolved, awaiting the gateway, or never created because
  the function threw. The page is a class whose `state` field is updated in
  place.
- `user_overlay_menu.dfy` (module `UserMenu`): the link and route rules are
  functions. The menu is a class. Its toggles update its fields, a
  `CookieJar` object standing for the browser's cookie store, and the event
  log.

Collaborators that are not in these two files are parameters:

- `api.buildOptions` is a function-valued field of `Api`.
- `api.hydrate` and `api.subreddits.get` are recorded as `ApiCall` values.
- The gateway's answer is a `Gateway` value: delivered with a value, or failed.
- The clock is the current year, passed in.
- `querystring.stringify` is a function parameter.

Behaviour worth noting:

- Each `populateData` call creates a new deferred and, on the fetch path,
  issues its own `subreddits.get`. Two calls are not merged into one pending
  future.
- The fetch is subscribed with `.done` and a success callback only. A failed
  fetch therefore leaves the promise pending forever (`Settle` gives `None`).
  No error reaches the page.
- The payload test is JavaScript truthiness. So `{data: {}}` counts as
  present and is hydrated, not fetched (`EmptyPayloadCountsAsPresent`).
- `loaded` is set to true whenever the promise resolves, whatever the
  resolved value holds. `ResolvedRender` shows that `render` then throws
  unless the value and its `data` field are non-null.

The source is an ES module and so runs in strict mode. Assigning a field of a
primitive therefore throws, as assigning a field of `undefined` or `null`
does. So `populateData` throws (`Threw`) unless the built options are an
object whose `query` is an object.

The constants module is not part of this model. Event names are therefore a
datatype of tags. `NIGHTMODE` and `DAYMODE` are taken as the strings
"nightmode" and "daymode"; the proofs use only that the two differ.

## Model

| member | source | states |
|---|---|---|
| `Js.Or` | src/views/pages/subredditAbout.jsx:19 | the JavaScript or-operator yields one of its operands, is truthy iff either operand is, and is the first when that is truthy and the second otherwise |
| `Js.SetField` | src/views/pages/subredditAbout.jsx:110-111 | assigning a field makes that field read as the new value and leaves every other field as it was |
| `Js.KeyCount` | src/views/components/UserOverlayMenu.jsx:223 | `Object.keys(v).length` is defined for every non-nullish value, and a value with keys is truthy |
| `Js.IndexFrom` | src/views/components/UserOverlayMenu.jsx:83 | searching from an index returns an occurrence at or after it with none before it, or -1 exactly when no occurrence follows it |
| `Js.IndexOf` | src/views/components/UserOverlayMenu.jsx:83 | `indexOf` is -1 iff the substring does not occur; otherwise it is the first index where it occurs |
| `Events.App.Emit` | src/views/pages/subredditAbout.jsx:33 | `app.emit(name, payload)` appends exactly that event to the log |
| `SubredditAbout.DefaultUseCache` | src/views/pages/subredditAbout.jsx:99 | an undefined `useCache` argument becomes true and any other argument is kept, so the flag is truthy iff the argument is undefined or truthy |
| `SubredditAbout.PopulateData` | src/views/pages/subredditAbout.jsx:99-126 | `populateData` calls nothing iff `synchronous` is falsy and makes at most two calls; an immediate resolution is always with `props.data`; it waits on the gateway iff it issued a fetch; a hydrate and a fetch never both happen, and a hydrate means resolution with `props.data` |
| `SubredditAbout.Settle` | src/views/pages/subredditAbout.jsx:121-123 | the promise gets a value iff it was resolved at once or the gateway delivered; the value is the immediate one or the gateway's |
| `SubredditAbout.Render` | src/views/pages/subredditAbout.jsx:40-76 | `render` throws iff the state's `data` is nullish, or it is loaded and `data.data` is nullish; otherwise it shows the loading indicator iff not loaded, the body iff loaded, and tracking iff `data.meta` and `renderTracking` are truthy |
| `SubredditAbout.ScopeOptions` | src/views/pages/subredditAbout.jsx:109-111 | after the in-place update the options' query names the subreddit and `useCache` is the flag; every other field of the options and of the query is unchanged |
| `SubredditAbout.UseCacheDefaultsToTrue` | src/views/pages/subredditAbout.jsx:99 | calling `populateData` without `useCache` behaves exactly as passing true |
| `SubredditAbout.ClientPathTouchesNothing` | src/views/pages/subredditAbout.jsx:104-107 | with `synchronous` falsy the promise resolves with exactly `props.data`, and no `buildOptions`, `hydrate` or `get` is called |
| `SubredditAbout.ServerPathScopesOptions` | src/views/pages/subredditAbout.jsx:109-111 | with `synchronous` truthy the first call is `buildOptions(props.apiOptions)`; every options object passed on has `query.subreddit == props.subredditName`, `useCache` equal to the flag, and the other built fields |
| `SubredditAbout.MalformedOptionsThrow` | src/views/pages/subredditAbout.jsx:110 | on the server path `populateData` throws iff the built options are not an object with an object `query`; the only call made is then `buildOptions` |
| `SubredditAbout.HydratePath` | src/views/pages/subredditAbout.jsx:114-118 | with `useCache` truthy and `props.data` carrying a truthy `data` field, the only call after `buildOptions` is one `hydrate('subreddits', options, props.data)`, there is no fetch, and the promise resolves with `props.data` |
| `SubredditAbout.FetchPath` | src/views/pages/subredditAbout.jsx:121-125 | otherwise the only call after `buildOptions` is one `subreddits.get(options)` and there is no hydrate; the promise resolves iff the gateway delivers, and then with the gateway's value |
| `SubredditAbout.EmptyPayloadCountsAsPresent` | src/views/pages/subredditAbout.jsx:114 | a payload `{data: {}}` counts as present: mounting resolves with it instead of fetching |
| `SubredditAbout.InitialState` | src/views/pages/subredditAbout.jsx:18-22 | the initial `data` is `props.data` when truthy, `{}` otherwise, and `loaded` holds iff the props carry a truthy `data.data` |
| `SubredditAbout.AfterResolution` | src/views/pages/subredditAbout.jsx:26-31 | on resolution the state becomes the resolved value with `loaded` true; with no resolution the state is unchanged |
| `SubredditAbout.LoadedNeverReverts` | src/views/pages/subredditAbout.jsx:26-31 | once `loaded` holds, no resolution sets it back to false |
| `SubredditAbout.InitialRender` | src/views/pages/subredditAbout.jsx:44-62 | the first render never throws; it shows the loading indicator iff the props carry no payload, and the tracking pixel iff `props.data.meta` and `renderTracking` are truthy |
| `SubredditAbout.ResolvedRender` | src/views/pages/subredditAbout.jsx:44-76 | after resolving with `v` there is no loading indicator; render succeeds iff `v` and `v.data` are non-nullish, and then shows tracking iff `v.meta` and `renderTracking` are truthy |
| `SubredditAbout.HydratedMountIsStable` | src/views/pages/subredditAbout.jsx:18-31 | a page constructed with a payload issues no fetch on mount and keeps its initial state whatever the gateway would answer |
| `SubredditAbout.SubredditAboutPage.constructor` | src/views/pages/subredditAbout.jsx:15-23 | the constructed page holds its props and the initial state |
| `SubredditAbout.SubredditAboutPage.ComponentDidMount` | src/views/pages/subredditAbout.jsx:25-34 | mounting makes the calls of `populateData(api, props, true)` and reports whether it threw; unless it threw, it emits `TOP_NAV_SUBREDDIT_CHANGE` with `r/<name>/about` and adopts the resolved value |
| `UserMenu.MenuItemUrl` | src/views/components/UserOverlayMenu.jsx:81-88 | a URL containing `/help` or `/wiki` is returned unchanged; any other URL is prefixed with `config.reddit` |
| `UserMenu.MenuItemUrlEndsWithItem` | src/views/components/UserOverlayMenu.jsx:87 | the link always ends with the item's URL, and what precedes it is nothing or exactly `config.reddit` |
| `UserMenu.CookieUpdate` | src/views/components/UserOverlayMenu.jsx:171-184 | an undefined value expires the cookie; any other value is stored with expiry two years on and the secure flag of `config.https`, or `config.httpsProxy` when that is falsy; no other cookie changes |
| `UserMenu.NextCompact` | src/views/components/UserOverlayMenu.jsx:189 | the compact toggle's next value always differs from the current one |
| `UserMenu.NextTheme` | src/views/components/UserOverlayMenu.jsx:205 | the next theme is night or day mode, and night mode iff the current theme is not night mode |
| `UserMenu.CompactToggleLabel` | src/views/components/UserOverlayMenu.jsx:113 | the compact button's label names the view a click switches to ("Card" when compact, "Compact" otherwise) |
| `UserMenu.ThemeToggleLabel` | src/views/components/UserOverlayMenu.jsx:119 | the theme button's label names the theme a click switches to ("Day" in night mode, "Night" otherwise) |
| `UserMenu.CompactToggleTwice` | src/views/components/UserOverlayMenu.jsx:188-189 | toggling compact view twice restores it |
| `UserMenu.ThemeToggle` | src/views/components/UserOverlayMenu.jsx:205 | two theme toggles restore the theme iff it started as night mode or day mode |
| `UserMenu.CompactCookieTracksPreference` | src/views/components/UserOverlayMenu.jsx:191-195 | after a compact toggle the `compact` cookie exists iff the new value is true, and then holds true for two years |
| `UserMenu.ThemeCookieTracksNightMode` | src/views/components/UserOverlayMenu.jsx:207-211 | after a theme toggle the `theme` cookie exists iff the next theme is night mode, and then holds night mode |
| `UserMenu.DesktopRoute` | src/views/components/UserOverlayMenu.jsx:220-227 | the route is `ctx.url` alone when the query has no keys and `ctx.url + "?" + stringify(ctx.query)` otherwise; it throws iff `ctx.query` is null or undefined |
| `UserMenu.CookieJar.Set` | src/views/components/UserOverlayMenu.jsx:179-182 | setting a cookie stores exactly that value, expiry and secure flag under its name |
| `UserMenu.CookieJar.Expire` | src/views/components/UserOverlayMenu.jsx:173 | expiring a cookie removes it and nothing else |
| `UserMenu.UserOverlayMenu.constructor` | src/views/components/UserOverlayMenu.jsx:20-26 | the initial state is the `compact` and `theme` props |
| `UserMenu.UserOverlayMenu.SetCookie` | src/views/components/UserOverlayMenu.jsx:171-184 | the cookie store afterwards is the `CookieUpdate` of the one before |
| `UserMenu.UserOverlayMenu.ViewPreferenceToggleClick` | src/views/components/UserOverlayMenu.jsx:186-200 | `compact` is negated and the theme is kept; the `compact` cookie is set to true or expired to match; the log gains `COMPACT_TOGGLE` with the new value, then `TOP_NAV_HAMBURGER_CLICK` |
| `UserMenu.UserOverlayMenu.ThemePreferenceToggle` | src/views/components/UserOverlayMenu.jsx:202-216 | the theme moves to the next theme and `compact` is kept; the `theme` cookie is set to night mode or expired to match; the log gains `THEME_TOGGLE` with the next theme, then `TOP_NAV_HAMBURGER_CLICK` |
| `UserMenu.UserOverlayMenu.GotoDesktopSiteClick` | src/views/components/UserOverlayMenu.jsx:218-228 | the click emits 'route:desktop' with the desktop route, or throws and emits nothing when the query is null or undefined |

## Left out

- JSX output, layout, CSS and icon class names, and the row components are not modelled. This includes `loggedInUserRows`, the login row, the desktop-site link's `href`, and the "About"/"Rules" expando lists. They are presentation only. Of `render` and `renderOverlayBody`, only the loading, tracking and body conditions and the two toggle labels are modelled.
- The list of menu items (`userOverlayMenuItems`) and `titleCase` are not part of this model. `MenuItemUrl` is stated for any one item.
- React's lifecycle scheduling is not modelled: `setState` batching, and `componentDidUpdate` emitting `page:update`.
- The q deferred is not modelled as asynchrony. A resolution is an `Outcome` plus `Settle`. In the source, `setState` runs on a later tick, after the `TOP_NAV_SUBREDDIT_CHANGE` emission.
- A failed gateway promise is not modelled beyond "never resolves". q's `.done` also rethrows the rejection later as an uncaught error, and that error is not modelled.
- The cache/hydration store and the API gateway are not in these files. Their behaviour is left out: the hydrate-then-get round trip, invalidation, and sharing one in-flight request. Only the calls made on them are recorded.
- `SubredditAbout.ScopeOptions` updates the options as a value. The source mutates the object `buildOptions` returned. If that object or its `query` is shared with `props.apiOptions`, the source's mutation is visible there too. The model does not capture that aliasing.
- No guard exists against a resolution arriving after the page is unmounted, so none is modelled.
- The cookie's expiry is recorded as the current year plus two. The exact `Date`, and how `setFullYear` rolls over 29 February, are clock details and are left out. The cookies-js encoding of values is left out too.
- `querystring.stringify` is a function parameter; its output format is not modelled. `e.preventDefault()` is a browser call and is left out.
- The page factory's `app.mutate` registration and the delivery of emitted events to listeners are plumbing and are left out.
- JavaScript numbers are reals here: NaN and the infinities are left out. Field reads see only an object's own fields, not its prototype chain. Primitives are taken to have no field with the names read here.
- The model assumes `subredditName` is a string. `SubredditAboutPage` declares no prop types, so the source accepts any value. A non-string name would be stored as it is in `query.subreddit` and converted to a string in the `r/<name>/about` payload; the model does not capture either.
- Strings are sequences of Unicode characters, not UTF-16 code units. For characters outside the Basic Multilingual Plane, `IndexOf`'s position and a string's `KeyCount` differ from JavaScript's. The views only compare them with -1 and 0, where the two agree. Lone surrogates cannot be represented.
- `item.url`, `config.reddit` and `ctx.url` are taken to be strings. In the source a template literal would turn any other value into a string (`undefined` becomes "undefined"), and `url.indexOf` would throw on a non-string.
- The `compact` prop is taken to be a boolean, as the menu's prop types require.
