/** The process-wide mutable state that the interceptor and the action
    creators share: persistent client storage, the browser session storage,
    the HTTP library's default `Authorization` header, the application store
    (its context slice and the log of what was dispatched to it) and the log
    of requests the interceptor sends. */
module Runtime {
  import opened Values
  import opened ContextReducer

  /** An HTTP request as it goes out: its URL, its headers and its body. */
  datatype Request = Request(url: string, headers: map<string, string>, body: Value)

  /** An HTTP response: only the status is read by the modelled code. */
  datatype Response = Response(status: int, data: Value)

  /** A failed request: the request's configuration and, unless the failure
      was at the transport level, the response. */
  datatype HttpError = HttpError(config: Request, response: Option<Response>)

  /** The key of the access token in client storage. */
  const AccessTokenKey := "sp-afro4isc"
  /** The key of the refresh token in client storage. */
  const RefreshTokenKey := "rt-afro4isc"

  /** A stored string as the storage wrapper returns it: the string, or
      `undefined` when the key is absent. */
  function Stored(storage: map<string, string>, key: string): Value
  {
    if key in storage then Str(storage[key]) else Undefined
  }

  class Browser {
    /** `clientStorage`: the persistent key/value store. */
    var storage: map<string, string>
    /** `sessionStorage`: the per-tab cache. */
    var session: map<string, Value>
    /** `axios.defaults.headers.common['Authorization']`. */
    var authorization: string
    /** The store's context state. */
    var state: State
    /** Every message dispatched to the store, oldest first. */
    var dispatched: seq<Action>
    /** Every request the interceptor sends to the network (refresh calls
        and re-issued requests), oldest first. */
    var requests: seq<Request>

    /** A fresh page: whatever storage and header the page starts with, and a
        store that has reduced nothing yet, so its state is the initial one. */
    constructor (storage: map<string, string>, session: map<string, Value>, authorization: string)
      ensures this.storage == storage && this.session == session && this.authorization == authorization
      ensures state == InitState && dispatched == [] && requests == []
    {
      this.storage := storage;
      this.session := session;
      this.authorization := authorization;
      state := Reducer(None, Other("@@INIT", Undefined));
      dispatched := [];
      requests := [];
    }

    /** `store.dispatch(action)`: the reducer applied to the current state; the
        message is appended to the log and nothing else changes. */
    method Dispatch(action: Action)
      modifies this
      ensures state == Reducer(Some(old(state)), action)
      ensures state == Run(old(state), [action])
      ensures dispatched == old(dispatched) + [action]
      ensures storage == old(storage) && session == old(session)
      ensures authorization == old(authorization) && requests == old(requests)
    {
      assert [action][1..] == [];
      state := Reducer(Some(state), action);
      dispatched := dispatched + [action];
    }
  }
}
