/** The subreddit "about" page: how `populateData` decides between the data
    the page was rendered with, hydrating the cache with it, and fetching
    afresh; the page's `{data, loaded}` state; and what `render` shows.

    The cache/hydration store and the API gateway are outside this model: the
    api object is reduced to its `buildOptions` function and the log of the
    calls made on it, and the gateway's answer to a fetch is a parameter. */
module SubredditAbout {
  import opened Js
  import opened Events

  /** The props the page reads. */
  datatype Props = Props(
    data: JsValue,
    apiOptions: JsValue,
    subredditName: string,
    renderTracking: JsValue)

  /** The api object: `buildOptions` is whatever function the application
      supplies; the other two members only record their calls. */
  datatype Api = Api(buildOptions: JsValue -> JsValue)

  /** One call on the api object, with its arguments. */
  datatype ApiCall =
    | BuildOptions(apiOptions: JsValue)
    | Hydrate(resource: string, options: JsValue, payload: JsValue)
    | SubredditsGet(options: JsValue)

  /** What the promise `populateData` returns is doing once the function has
      returned: resolved with a value, waiting for the gateway's success
      callback, or never created because the function threw a TypeError. */
  datatype Outcome = Resolved(value: JsValue) | AwaitingGateway | Threw

  datatype Population = Population(calls: seq<ApiCall>, outcome: Outcome)

  /** How the gateway's `subreddits.get` promise ends. */
  datatype Gateway = Delivered(value: JsValue) | Failed

  /** The default parameter `useCache = true`: it applies whenever the
      argument is undefined, passed or not. */
  function DefaultUseCache(arg: JsValue): (r: JsValue)
    ensures arg == Undefined ==> r == Bool(true)
    ensures arg != Undefined ==> r == arg
    ensures Truthy(r) <==> arg == Undefined || Truthy(arg)
  {
    if arg == Undefined then Bool(true) else arg
  }

  /** `options.query.subreddit = ...` and `options.useCache = ...` succeed only
      when the built options are an object whose `query` is an object. */
  predicate Scopable(options: JsValue) {
    options.Obj? && Field(options, "query").Obj?
  }

  /** The in-place update of the built options: the query names the
      subreddit, `useCache` is the flag, and every other field is kept. */
  function ScopeOptions(options: JsValue, subredditName: string, useCache: JsValue): (r: JsValue)
    requires Scopable(options)
    ensures Scopable(r)
    ensures Field(Field(r, "query"), "subreddit") == Str(subredditName)
    ensures Field(r, "useCache") == useCache
    ensures forall k :: k != "query" && k != "useCache" ==> Field(r, k) == Field(options, k)
    ensures forall k :: k != "subreddit" ==>
      Field(Field(r, "query"), k) == Field(Field(options, "query"), k)
  {
    var query := SetField(Field(options, "query"), "subreddit", Str(subredditName));
    SetField(SetField(options, "query", query), "useCache", useCache)
  }

  /** `(props.data || {}).data` is truthy: the page already holds a payload. */
  predicate CarriesPayload(props: Props) {
    Truthy(Field(Or(props.data, EmptyObject), "data"))
  }

  /** `SubredditAboutPage.populateData(api, props, synchronous, useCache)`. */
  function PopulateData(api: Api, props: Props, synchronous: JsValue, useCache: JsValue): (p: Population)
    ensures p.calls == [] <==> !Truthy(synchronous)
    ensures |p.calls| <= 2
    ensures p.outcome.Resolved? ==> p.outcome.value == props.data
    ensures p.outcome.AwaitingGateway? <==> exists c :: c in p.calls && IsFetch(c)
    ensures (exists c :: c in p.calls && IsHydrate(c)) ==> p.outcome == Resolved(props.data)
    ensures !((exists c :: c in p.calls && IsFetch(c)) && (exists c :: c in p.calls && IsHydrate(c)))
  {
    var flag := DefaultUseCache(useCache);
    if !Truthy(synchronous) then
      Population([], Resolved(props.data))
    else
      var built := api.buildOptions(props.apiOptions);
      if !Scopable(built) then
        Population([BuildOptions(props.apiOptions)], Threw)
      else
        var options := ScopeOptions(built, props.subredditName, flag);
        if Truthy(flag) && CarriesPayload(props) then
          Population([BuildOptions(props.apiOptions), Hydrate("subreddits", options, props.data)],
                     Resolved(props.data))
        else
          var fetch := SubredditsGet(options);
          assert IsFetch(fetch) && fetch in [BuildOptions(props.apiOptions), fetch];
          Population([BuildOptions(props.apiOptions), fetch], AwaitingGateway)
  }

  /** The value the promise resolves with, if it ever does: only the success
      callback of the gateway's promise resolves it. */
  function Settle(outcome: Outcome, gateway: Gateway): (r: Option<JsValue>)
    ensures r.Some? <==> outcome.Resolved? || (outcome.AwaitingGateway? && gateway.Delivered?)
    ensures r.Some? && outcome.Resolved? ==> r.value == outcome.value
    ensures r.Some? && outcome.AwaitingGateway? ==> r.value == gateway.value
  {
    match outcome
    case Resolved(v) => Some(v)
    case AwaitingGateway => if gateway.Delivered? then Some(gateway.value) else None
    case Threw => None
  }

  /** Did a call go to the fetch gateway or the hydration store? */
  predicate IsFetch(c: ApiCall) { c.SubredditsGet? }
  predicate IsHydrate(c: ApiCall) { c.Hydrate? }

  /** The options a call carries on to the store or the gateway, if any. */
  function OptionsOf(c: ApiCall): Option<JsValue> {
    match c
    case BuildOptions(_) => None
    case Hydrate(_, o, _) => Some(o)
    case SubredditsGet(o) => Some(o)
  }

  /** Leaving `useCache` out is the same as passing true. */
  lemma UseCacheDefaultsToTrue(api: Api, props: Props, synchronous: JsValue)
    ensures PopulateData(api, props, synchronous, Undefined)
         == PopulateData(api, props, synchronous, Bool(true))
  {
  }

  /** The client-side path: resolve with the props' data, whatever it is,
      and make no call on the api object. */
  lemma ClientPathTouchesNothing(api: Api, props: Props, synchronous: JsValue, useCache: JsValue)
    requires !Truthy(synchronous)
    ensures PopulateData(api, props, synchronous, useCache) == Population([], Resolved(props.data))
  {
  }

  /** On the server path, options are built from the props' api options
      first, and every options object passed on names the subreddit and
      carries the `useCache` flag, with the other built fields left as they were. */
  lemma ServerPathScopesOptions(api: Api, props: Props, synchronous: JsValue, useCache: JsValue)
    requires Truthy(synchronous)
    ensures var p := PopulateData(api, props, synchronous, useCache);
      && |p.calls| >= 1
      && p.calls[0] == BuildOptions(props.apiOptions)
      && forall i :: 0 <= i < |p.calls| && OptionsOf(p.calls[i]).Some? ==>
           var o := OptionsOf(p.calls[i]).value;
           && Scopable(o)
           && Field(Field(o, "query"), "subreddit") == Str(props.subredditName)
           && Field(o, "useCache") == DefaultUseCache(useCache)
           && (forall k :: k != "query" && k != "useCache" ==>
                 Field(o, k) == Field(api.buildOptions(props.apiOptions), k))
           && (forall k :: k != "subreddit" ==>
                 Field(Field(o, "query"), k) == Field(Field(api.buildOptions(props.apiOptions), "query"), k))
  {
  }

  /** Built options without an object `query` make the assignment to
      `options.query.subreddit` throw, after the one `buildOptions` call. */
  lemma MalformedOptionsThrow(api: Api, props: Props, synchronous: JsValue, useCache: JsValue)
    requires Truthy(synchronous)
    ensures var p := PopulateData(api, props, synchronous, useCache);
      p.outcome == Threw <==> !Scopable(api.buildOptions(props.apiOptions))
    ensures var p := PopulateData(api, props, synchronous, useCache);
      p.outcome == Threw ==> p.calls == [BuildOptions(props.apiOptions)]
  {
  }

  /** Server path with the cache enabled and a payload already in the props:
      exactly one hydrate of 'subreddits' with that payload, no fetch, and the
      promise resolves with the props' data. */
  lemma HydratePath(api: Api, props: Props, synchronous: JsValue, useCache: JsValue)
    requires Truthy(synchronous) && Scopable(api.buildOptions(props.apiOptions))
    requires Truthy(DefaultUseCache(useCache)) && CarriesPayload(props)
    ensures var p := PopulateData(api, props, synchronous, useCache);
      && p.outcome == Resolved(props.data)
      && |p.calls| == 2
      && p.calls[1].Hydrate?
      && p.calls[1].resource == "subreddits"
      && p.calls[1].payload == props.data
      && forall c :: c in p.calls ==> !IsFetch(c)
  {
  }

  /** Server path otherwise: exactly one `subreddits.get`, no hydrate, and
      the promise resolves with the gateway's value, or never if it fails. */
  lemma FetchPath(api: Api, props: Props, synchronous: JsValue, useCache: JsValue, gateway: Gateway)
    requires Truthy(synchronous) && Scopable(api.buildOptions(props.apiOptions))
    requires !(Truthy(DefaultUseCache(useCache)) && CarriesPayload(props))
    ensures var p := PopulateData(api, props, synchronous, useCache);
      && |p.calls| == 2
      && IsFetch(p.calls[1])
      && (forall c :: c in p.calls ==> !IsHydrate(c))
      && p.outcome == AwaitingGateway
      && (Settle(p.outcome, gateway).Some? <==> gateway.Delivered?)
      && (gateway.Delivered? ==> Settle(p.outcome, gateway) == Some(gateway.value))
  {
  }

  /** An empty object as the props' payload counts as present: it is
      hydrated, not fetched. */
  lemma EmptyPayloadCountsAsPresent(api: Api, props: Props)
    requires props.data == Obj(map["data" := EmptyObject])
    requires Scopable(api.buildOptions(props.apiOptions))
    ensures PopulateData(api, props, Bool(true), Undefined).outcome == Resolved(props.data)
  {
  }

  /** The component's `{data, loaded}` state. */
  datatype PageState = PageState(data: JsValue, loaded: bool)

  /** The constructor's state: the props' data or `{}`, loaded iff it
      already carries a payload. */
  function InitialState(props: Props): (s: PageState)
    ensures s.loaded <==> CarriesPayload(props)
    ensures Truthy(props.data) ==> s.data == props.data
    ensures !Truthy(props.data) ==> s.data == EmptyObject
  {
    var data := Or(props.data, EmptyObject);
    PageState(data, Truthy(Field(data, "data")))
  }

  /** `setState({data, loaded: true})` when the promise resolves; nothing
      happens when it never does. */
  function AfterResolution(s: PageState, resolved: Option<JsValue>): (t: PageState)
    ensures resolved.Some? ==> t == PageState(resolved.value, true)
    ensures resolved.None? ==> t == s
  {
    match resolved
    case Some(v) => PageState(v, true)
    case None => s
  }

  /** What `render` shows: the loading indicator, the tracking pixel and
      the subreddit body. */
  datatype View = View(loading: bool, tracking: bool, body: bool)

  /** `render()`, or None where it throws: reading `data.meta` of a nullish
      state, or the body's fields of a nullish `data.data` once loaded. */
  function Render(s: PageState, renderTracking: JsValue): (r: Option<View>)
    ensures r.None? <==> Nullish(s.data) || (s.loaded && Nullish(Field(s.data, "data")))
    ensures r.Some? ==> r.value.loading == !s.loaded && r.value.body == s.loaded
    ensures r.Some? ==>
      (r.value.tracking <==> Truthy(Field(s.data, "meta")) && Truthy(renderTracking))
  {
    if Nullish(s.data) then None
    else
      var loading := !s.loaded;
      var tracking := Truthy(Field(s.data, "meta")) && Truthy(renderTracking);
      if !loading && Nullish(Field(s.data, "data")) then None
      else Some(View(loading, tracking, !loading))
  }

  /** The first render never throws: it shows the loading indicator iff the
      props carry no payload, the body otherwise, and the tracking pixel iff
      the props' data has a `meta` and tracking is asked for. */
  lemma InitialRender(props: Props)
    ensures Render(InitialState(props), props.renderTracking)
         == Some(View(!CarriesPayload(props),
                      Truthy(props.data) && Truthy(Field(props.data, "meta")) && Truthy(props.renderTracking),
                      CarriesPayload(props)))
  {
  }

  /** Once the promise resolves with `v` the loading indicator is gone, and
      the page renders iff `v` and `v.data` are not nullish; the tracking
      pixel then shows iff `v.meta` is truthy and tracking is asked for. */
  lemma ResolvedRender(s: PageState, v: JsValue, renderTracking: JsValue)
    ensures var r := Render(AfterResolution(s, Some(v)), renderTracking);
      && (r.Some? <==> !Nullish(v) && !Nullish(Field(v, "data")))
      && (r.Some? ==> !r.value.loading && r.value.body
                      && (r.value.tracking <==> Truthy(Field(v, "meta")) && Truthy(renderTracking)))
  {
  }

  /** Nothing sets `loaded` back to false. */
  lemma LoadedNeverReverts(s: PageState, resolved: Option<JsValue>)
    requires s.loaded
    ensures AfterResolution(s, resolved).loaded
  {
  }

  /** The server-rendered hand-off is seamless: a page constructed with a
      payload keeps exactly its state after mounting, fetches nothing, and
      whatever the gateway would have answered does not matter. */
  lemma HydratedMountIsStable(api: Api, props: Props, gateway: Gateway)
    requires CarriesPayload(props)
    ensures var p := PopulateData(api, props, Bool(true), Undefined);
      && (forall c :: c in p.calls ==> !IsFetch(c))
      && AfterResolution(InitialState(props), Settle(p.outcome, gateway)) == InitialState(props)
  {
  }

  /** The page component. */
  class SubredditAboutPage {
    const props: Props
    var state: PageState

    constructor (props: Props)
      ensures this.props == props
      ensures state == InitialState(props)
    {
      this.props := props;
      state := InitialState(props);
    }

    /** `componentDidMount`: populate synchronously with the default
        `useCache`, announce the subreddit to the top navigation, and adopt
        the resolved value. Returns the calls made on the api object and
        whether `populateData` threw instead. */
    method ComponentDidMount(api: Api, app: App, gateway: Gateway) returns (calls: seq<ApiCall>, threw: bool)
      modifies this, app
      ensures calls == PopulateData(api, props, Bool(true), Undefined).calls
      ensures threw <==> PopulateData(api, props, Bool(true), Undefined).outcome == Threw
      ensures var p := PopulateData(api, props, Bool(true), Undefined);
        if p.outcome == Threw then
          app.emitted == old(app.emitted) && state == old(state)
        else
          && app.emitted == old(app.emitted)
               + [Event(TopNavSubredditChange, Str("r/" + props.subredditName + "/about"))]
          && state == AfterResolution(old(state), Settle(p.outcome, gateway))
    {
      var p := PopulateData(api, props, Bool(true), Undefined);
      calls := p.calls;
      threw := p.outcome == Threw;
      if threw {
        return;
      }
      app.Emit(TopNavSubredditChange, Str("r/" + props.subredditName + "/about"));
      var resolved := Settle(p.outcome, gateway);
      if resolved.Some? {
        state := PageState(resolved.value, true);
      }
    }
  }
}
