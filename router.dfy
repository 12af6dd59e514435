/** The router values the session layer reads and produces: the current
    location, the state attached to a history entry, and a redirect. */
module Router {
  import opened JsValues

  /** A router location; `state` is what the navigation that led here attached. */
  datatype Location = Location(pathname: string, search: string, hash: string, state: Option<HistoryState>)

  /** The state object a guard attaches to a redirect: `{ from: location }`. */
  datatype HistoryState = HistoryState(from: Option<Location>)

  /** `<Navigate to=... state=... replace />` or `navigate(to, { replace })`. */
  datatype Navigation = Navigation(to: string, state: Option<HistoryState>, replace: bool)
}
