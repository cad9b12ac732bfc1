/** The application object's event bus (`app.emit`), reduced to the log of
    what was emitted; delivery to listeners is not part of this model. */
module Events {
  import opened Js

  /** The event names the two views emit. The constants module that holds
      their string values is not part of this model, so each is a tag;
      `RouteDesktop` is the literal name 'route:desktop'. */
  datatype EventName =
    | TopNavSubredditChange
    | TopNavHamburgerClick
    | CompactToggle
    | ThemeToggle
    | RouteDesktop

  /** `app.emit(name, payload)`; an emission without a payload carries `undefined`. */
  datatype Event = Event(name: EventName, payload: JsValue)

  class App {
    var emitted: seq<Event>

    constructor ()
      ensures emitted == []
    {
      emitted := [];
    }

    method Emit(name: EventName, payload: JsValue)
      modifies this
      ensures emitted == old(emitted) + [Event(name, payload)]
    {
      emitted := emitted + [Event(name, payload)];
    }
  }
}
