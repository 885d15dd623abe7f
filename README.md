# Session state of an administrative single-page application, in Dafny

This project models the session-state core of a customer/user/product
administration front end:

- **The context reducer** (`src/store/context/Reducer.ts`). It is a pure
  transition function over the store's context state: the loading flag,
  language, theme, authentication flag, permissions, languages, site
  configuration, and the per-data-type forms (`item`) and lists
  (`listItems`). The generic `FIELD_CHANGE` message writes any top-level
  property by name. The model keeps the declared slots as named fields and
  puts properties with other names in a `dynamic` map. `Get(s, name)` reads
  the state by key, as the source's computed-key writes see it.
- **The action creators** of the same file: `Loading`, `Loaded`,
  `ChangeLanguage`, `ChangeTheme`, `SwitchAuthenticated`,
  `GetSiteConfiguration`, `GetLanguage` and `FieldChange`. Each is a method
  on the shared runtime. What it dispatches is a function of the state
  snapshot it reads (or of the reply it receives), and the method's contract
  ties the dispatch log and the new store state to that function.
- **The token-refresh interceptor** (`src/api/Interceptors.ts`): `setToken`,
  `clearToken`, the forced logout `handleError`, and the response-error
  handler. On a 401 the handler either logs out, or refreshes the tokens and
  re-issues the original request once.

The shared mutable environment is the class `Runtime.Browser`. It holds
client storage (`sp-afro4isc` = access token, `rt-afro4isc` = refresh
token, `I18nLang`), session storage (`cf`, `lng`), the HTTP library's
default `Authorization` header, the store's context state, the log of
dispatched messages and the log of requests the interceptor sends. Network
replies are inputs to the methods.

In a few places the code does something other than what its own names
announce (a theme message, a logout built on failure, a language change
confirmed by the server). The model follows the code:

- `CHANGE_THEME` writes its theme into `language`
  (`ChangeThemeWritesLanguage`).
- The `ChangeTheme` creator dispatches a `CHANGE_LANGUAGE` message that
  carries no language. The language becomes undefined and the theme is never
  recorded, so calling `ChangeTheme` again dispatches again
  (`ChangeThemeNeverSettles`).
- When the configuration fetch fails, `GetSiteConfiguration` builds a logout
  thunk but never dispatches it. The creator itself therefore dispatches
  nothing and changes nothing on failure
  (`ConfigurationFailureKeepsSession`). A 401 on that request can still log
  out, but through the interceptor, before the creator sees the reply.
- `ChangeLanguage` awaits its PUT to the user-language endpoint but never
  reads the reply. It stores and dispatches the new language whatever
  status the server answers with.
- When the refresh call itself fails, the awaited call throws. The caller
  then receives the refresh call's error, not the original one. If that
  failure is a 401, the nested run of the same interceptor has already
  logged out.

Files: `values.dfy` (the scripting language's values: truthiness, spread,
property lookup), `reducer.dfy`, `urls.dfy` (the URL split behind the
refresh-endpoint test), `runtime.dfy`, `interceptors.dfy`,
`action_creators.dfy`.

## Model

| member | source | states |
|---|---|---|
| ContextReducer.UndefinedStateYieldsInit | src/store/context/Reducer.ts:256-262 | An undefined state yields exactly the initial state, whatever the message. |
| ContextReducer.Reducer | src/store/context/Reducer.ts:256-392 | The reducer: no message changes any top-level property outside an independently listed write set per message kind. |
| ContextReducer.LoadingFlag | src/store/context/Reducer.ts:265-276 | LOADING makes `loading` true and LOADED makes it false; every other property is unchanged. |
| ContextReducer.ChangeThemeWritesLanguage | src/store/context/Reducer.ts:283-288 | CHANGE_THEME makes `language` exactly the message's theme; every other property, `theme` included, is unchanged. |
| ContextReducer.ReplaceSlot | src/store/context/Reducer.ts:369-386 | GET_CONFIGURATION, GET_ROLES_USER and GET_LANGUAGE (and CHANGE_LANGUAGE, lines 277-282) each replace one property wholesale by the payload (`siteConfiguration`, `permissions`, `languages`, `language`); nothing else changes. |
| ContextReducer.ThemeOnlyByFieldChange | src/store/context/Reducer.ts:277-288 | The theme changes only under a FIELD_CHANGE naming `theme`: CHANGE_THEME writes `language`, not `theme`. |
| ContextReducer.ListReset | src/store/context/Reducer.ts:290-299 | REQUEST_ITEMS sets `listItems[d]` to `[]` and keeps every other data type's list and every other property. |
| ContextReducer.FormReset | src/store/context/Reducer.ts:301-337 | NEW_FORM and REQUEST_ITEM set `item[d]` to `{}`, add `d` to the keys, and keep every other data type's form and every other property. |
| ContextReducer.FieldChangeWrites | src/store/context/Reducer.ts:311-316 | FIELD_CHANGE stores its value under its name, declared slot or not; every other property reads as before. |
| ContextReducer.FormFieldChangeWrites | src/store/context/Reducer.ts:317-328 | FORM_FIELD_CHANGE sets `item[d][f]` and keeps the other fields of `item[d]` (an absent form counts as empty) and the other data types' forms. |
| ContextReducer.UpdateFormReplaces | src/store/context/Reducer.ts:338-346 | UPDATE_FORM makes `item[d]` exactly the given item (replace, not merge) and keeps the other forms. |
| ContextReducer.UpdateFormAfterEdit | src/store/context/Reducer.ts:317-346 | A field edit followed by UPDATE_FORM leaves exactly the supplied item: the edit is discarded. |
| ContextReducer.NewFormAfterEdit | src/store/context/Reducer.ts:317-337 | A field edit followed by NEW_FORM leaves an empty form. |
| ContextReducer.SwitchAuthenticatedEffect | src/store/context/Reducer.ts:347-362 | LOGGEDIN only sets `isAuthenticated` true. Any other switch sets it false and empties `languages` and `permissions`. No other property changes. |
| ContextReducer.NoOpMessages | src/store/context/Reducer.ts:363-390 | GET_DATA_USER (363-368) and every message without a case (default, 387-390) return a state equal to the input. |
| Urls.Split | src/api/Interceptors.ts:13 | Splitting a URL on `/` gives at least one piece, and no piece contains the separator. |
| Urls.JoinSplit | src/api/Interceptors.ts:13 | Joining the pieces with the separator restores the URL (round trip). |
| Urls.SplitLast | src/api/Interceptors.ts:13-14 | The last piece ends the string; unless it is the whole string, a separator precedes it. |
| Urls.LastSegment | src/api/Interceptors.ts:13-14 | The last segment contains no `/` and is a suffix of the URL. |
| Urls.LastSegmentIs | src/api/Interceptors.ts:13-14 | The last piece is a slash-free `t` exactly when the URL is `t` or ends in `/` followed by `t`. |
| Runtime.Browser.constructor | src/store/context/Reducer.ts:256-262 | A new page's store starts in the initial state with empty logs and the given storage and header. |
| Runtime.Browser.Dispatch | src/store/context/Reducer.ts:256-259 | Dispatch applies the reducer to the current state and appends the message to the log; storage, header and request log are unchanged. |
| Interceptors.SetToken | src/api/Interceptors.ts:43-45 | The default header becomes exactly `Bearer <token>`; nothing else changes. |
| Interceptors.ClearToken | src/api/Interceptors.ts:47-49 | The default header becomes `""`; nothing else changes. |
| Interceptors.BearerIdentifiesToken | src/api/Interceptors.ts:43-49 | A header set by `setToken` is never the cleared header, and it determines the token. |
| Interceptors.HandleError | src/api/Interceptors.ts:50-63 | Logout removes both tokens, clears session storage and the header, then dispatches LOGGEDOUT and the `Signin` redirect with `SigninAgain`, in that order. |
| Interceptors.LogoutState | src/api/Interceptors.ts:55-62 | After the logout messages the store is unauthenticated with no languages and no permissions; every other property is unchanged. |
| Interceptors.Classify | src/api/Interceptors.ts:12-36 | Passed on exactly when the error is not a 401. A refresh is attempted exactly when it is a 401, a refresh token is stored, and the URL is neither `refreshtoken` nor ends in `/refreshtoken`. Every other 401 logs out. |
| Interceptors.OnRejected | src/api/Interceptors.ts:10-41 | Covers every branch. Non-401: rejected unchanged, nothing touched. 401 from the refresh endpoint, or no refresh token: logout, then the original error. Otherwise: header `Bearer <refresh>`, one refresh call with `oldToken`, then one of three results. (a) 200: both tokens stored, both headers `Bearer <new access>`, the original re-issued once and its result returned. (b) Another status: no token written, original error rejected. (c) Failure: that failure rejected, after a logout if it was a 401. |
| Interceptors.Intercept | src/api/Interceptors.ts:8-41 | A response passes through untouched. An error without a 401 is rejected untouched. |
| Interceptors.RefreshEndpointTest | src/api/Interceptors.ts:13-15 | A URL counts as the refresh endpoint exactly when it is `refreshtoken` or ends in `/refreshtoken`. |
| Interceptors.RefreshEndpointExamples | src/api/Interceptors.ts:13-15 | `a/b/refreshtoken` matches; `refreshtoken/x` and `refreshtoken2` do not. |
| Interceptors.RefreshCallNeverRefreshes | src/api/Interceptors.ts:13-25 | An error from the refresh call is never answered by another refresh (the loop guard). |
| ActionCreators.Loading | src/store/context/Reducer.ts:125-132 | Dispatches LOADING only when the snapshot is not loading; storage, session and header are untouched. |
| ActionCreators.Loaded | src/store/context/Reducer.ts:133-140 | Dispatches LOADED only when the snapshot is loading; storage, session and header are untouched. |
| ActionCreators.LoadingIdempotent | src/store/context/Reducer.ts:125-132 | LOADING is dispatched iff the snapshot is not loading. Afterwards the store is loading, and a second `Loading` dispatches nothing. |
| ActionCreators.LoadedIdempotent | src/store/context/Reducer.ts:133-140 | LOADED is dispatched iff the snapshot is loading. Afterwards the store is not loading, and a second `Loaded` dispatches nothing. |
| ActionCreators.ChangeLanguage | src/store/context/Reducer.ts:141-162 | When the snapshot's language differs: `I18nLang` is stored and CHANGE_LANGUAGE dispatched, whatever the server answered. Otherwise nothing changes. |
| ActionCreators.ChangeTheme | src/store/context/Reducer.ts:163-173 | When the snapshot's theme differs, dispatches a CHANGE_LANGUAGE message without a language; nothing else changes. |
| ActionCreators.ChangeThemeNeverSettles | src/store/context/Reducer.ts:163-173 | After `ChangeTheme` the theme is unchanged and the language undefined, so the same call dispatches again. |
| ActionCreators.SwitchAuthenticated | src/store/context/Reducer.ts:175-202 | Login: stores both tokens and sets `Bearer <access>`. Logout: removes both tokens, clears the session cache and the header, and dispatches GET_DATA_USER and GET_ROLES_USER([]). Either way SWITCH_AUTHENTICATED is dispatched last. |
| ActionCreators.LogoutSwitchState | src/store/context/Reducer.ts:183-201 | After the logout messages the store is unauthenticated with no languages and no permissions; every other property is unchanged. |
| ActionCreators.ConfigEntries | src/store/context/Reducer.ts:207-212 | One entry per row (none for an absent body). Each entry has exactly `configName` and `configValue`, equal to the row's. |
| ActionCreators.GetSiteConfiguration | src/store/context/Reducer.ts:204-222 | On a 200: caches the entries under `cf` and dispatches GET_CONFIGURATION with them. Otherwise the creator itself dispatches nothing and changes nothing. |
| ActionCreators.ConfigurationFailureKeepsSession | src/store/context/Reducer.ts:219-221 | On a failed configuration fetch the creator itself dispatches nothing that changes the store: the logout it builds is never sent. |
| ActionCreators.Table | src/store/context/Reducer.ts:227-233 | The per-language fold of the rows; rows sharing a key collapse, so a table never has more entries than there are rows. |
| ActionCreators.BuildTables | src/store/context/Reducer.ts:227-233 | The loop builds both translation tables equal to the per-language fold of the rows. |
| ActionCreators.TableKeys | src/store/context/Reducer.ts:227-233 | A table's keys are exactly the rows' keys. |
| ActionCreators.TableValues | src/store/context/Reducer.ts:227-233 | Each key holds the text of the last row carrying it (later rows overwrite earlier ones). |
| ActionCreators.GetLanguage | src/store/context/Reducer.ts:224-241 | On a 200: caches `{en, fr}` under `lng` and dispatches GET_LANGUAGE with it. Otherwise nothing changes. |
| ActionCreators.FieldChange | src/store/context/Reducer.ts:243-251 | Dispatches FIELD_CHANGE with the given name and value and nothing else. |

## Left out

- `src/api/client.ts` is not part of this model. It holds the request client's verbs, which turn errors into returned responses; the upload helper; the `recall` flag; and the constructor that seeds the header with the stored token. The action creators receive the client's replies as inputs. `setToken`/`clearToken` in that file are identical to the ones modelled from `src/api/Interceptors.ts`.
- The page components and `src/models/form/index.ts` (rendering and type declarations) are not part of this model.
- `InitState`, `ActionType`, `Endpoint`, `models/context` and `constant/clientStorage` are not part of this model. The initial state is a placeholder constant; action types are constructors of `Action`; storage is a map with set, remove and clear.
- The creators' replies are taken as they arrive after interception. The response interceptor is installed on the same HTTP instance the request client uses, so a 401 on a creator's own request runs `OnRejected` first (and may log out or refresh) before the creator sees the reply. That composition is not part of the model.
- Network, timers and `async` scheduling: replies are method inputs. Concurrently fired thunks, concurrent 401s and refresh coalescing are out, because the model runs one handler or creator at a time. Requests sent by the action creators are not logged.
- Interceptors.OnRejected: the re-issued original request also passes through the interceptor. Its settled result is taken as an input and that second run is not modelled.
- Interceptors.OnRejected: the HTTP library's request configuration is updated in place. The model returns the re-authorized request as a new value, so aliasing with the caller's object is not captured.
- Interceptors.OnRejected: requires the refresh endpoint's last segment to be `refreshtoken`. The endpoint constant is not part of this model, and the handler's loop guard relies on it.
- Interceptors.Intercept: states only the pass-through cases. Every 401 is described by `OnRejected`.
- ActionCreators.SwitchAuthenticated: the caller's completion callback `cb` is arbitrary code and is not modelled. It runs after the storage and header updates and before the final dispatch.
- The creators' guard `actionState && actionState.ContextState` is taken to hold always. The store has reduced at least once by the time any creator runs, so the context slice exists.
- ActionCreators.ChangeLanguage: the language argument is modelled as a string. The optional (undefined) argument and the `catch` that logs to the console are not modelled.
- `src/api/Interceptors.ts` clears the browser's global `sessionStorage`, while the creators use the storage wrapper's `sessionStorage`. Both are modelled as the same session map.
- Server bodies are taken in their documented shape. Translation rows carry string keys, and the configuration body is a list or absent. Malformed bodies on which the source would throw are not modelled: non-list data, null rows, or a string `data` with a length in `GetLanguage`.
- Spreading or indexing an array or a string is treated as having no own properties (`Values.Spread`, `Values.Lookup`). Numbers are integers.
- The store combines other reducers (the router consumes `Signin`). Only the context slice is modelled.
