/** The action creators of the context store (src/store/context/Reducer.ts,
    `ActionCreators`): each reads a snapshot of the context state, may update
    storage and the default header, and dispatches messages in order. The
    network replies they wait for are inputs. */
module ActionCreators {
  import opened Values
  import opened ContextReducer
  import opened Runtime
  import Interceptors

  /** The client-storage key of the chosen interface language. */
  const LanguageKey := "I18nLang"
  /** The session-storage key of the cached site configuration. */
  const ConfigCacheKey := "cf"
  /** The session-storage key of the cached translation tables. */
  const LanguageCacheKey := "lng"

  /** What the request client returns for a GET: nothing (a transport
      failure), or a status with a body that may be absent. */
  datatype Reply<T> = NoResponse | Reply(status: int, data: Option<T>)

  predicate IsOk<T>(reply: Reply<T>)
  {
    reply.Reply? && reply.status == 200
  }

  /** A row of the translation endpoint. */
  datatype LanguageRow = LanguageRow(key: string, valueEn: Value, valueFr: Value)

  datatype Lang = En | Fr

  function Text(row: LanguageRow, lang: Lang): Value
  {
    if lang == En then row.valueEn else row.valueFr
  }

  // ---------------------------------------------------------------------
  // What each creator dispatches, as a function of what it reads
  // ---------------------------------------------------------------------

  /** `Loading`: LOADING, unless the snapshot is already loading. */
  function LoadingDispatches(s: State): seq<Action>
  {
    if !Truthy(s.loading) then [Action.Loading] else []
  }

  /** `Loaded`: LOADED, only if the snapshot is loading. */
  function LoadedDispatches(s: State): seq<Action>
  {
    if Truthy(s.loading) then [Action.Loaded] else []
  }

  /** `ChangeLanguage`: CHANGE_LANGUAGE when the language differs. */
  function ChangeLanguageDispatches(s: State, language: string): seq<Action>
  {
    if s.language != Str(language) then [Action.ChangeLanguage(Str(language))] else []
  }

  /** `ChangeTheme`: when the theme differs, a CHANGE_LANGUAGE message that
      carries only a theme, so the reducer reads its language as undefined. */
  function ChangeThemeDispatches(s: State, theme: string): seq<Action>
  {
    if s.theme != Str(theme) then [Action.ChangeLanguage(Undefined)] else []
  }

  /** `SwitchAuthenticated`: on logout the user and the permissions are reset
      first; the switch itself comes last either way. */
  function SwitchDispatches(auth: AuthSwitch): seq<Action>
  {
    if auth == LoggedIn then [Action.SwitchAuthenticated(LoggedIn)]
    else [GetDataUser(Undefined), GetRolesUser(EmptyList), Action.SwitchAuthenticated(auth)]
  }

  /** One entry of the cached configuration: only the name and the value of
      the server's row. */
  function ConfigEntry(row: Value): Value
  {
    Obj(map["configName" := Lookup(row, "configName"), "configValue" := Lookup(row, "configValue")])
  }

  /** `(res.data ?? []).map(...)`: the configuration entries of a reply. */
  function ConfigEntries(data: Option<seq<Value>>): (entries: seq<Value>)
    ensures data.None? ==> entries == []
    ensures data.Some? ==> |entries| == |data.value|
    ensures data.Some? ==> forall i :: 0 <= i < |entries| ==>
      && entries[i].Obj?
      && entries[i].fields.Keys == {"configName", "configValue"}
      && Lookup(entries[i], "configName") == Lookup(data.value[i], "configName")
      && Lookup(entries[i], "configValue") == Lookup(data.value[i], "configValue")
  {
    match data
    case None => []
    case Some(rows) => seq(|rows|, i requires 0 <= i < |rows| => ConfigEntry(rows[i]))
  }

  /** `GetSiteConfiguration`: GET_CONFIGURATION on a 200, nothing otherwise. */
  function ConfigurationDispatches(reply: Reply<seq<Value>>): seq<Action>
  {
    if IsOk(reply) then [GetConfiguration(List(ConfigEntries(reply.data)))] else []
  }

  /** The translation table of one language built by the `forEach` loop: each
      row sets its key, later rows overwriting earlier ones. */
  function Table(rows: seq<LanguageRow>, lang: Lang): (table: map<string, Value>)
    // Rows sharing a key collapse into one entry.
    ensures |table| <= |rows|
    decreases |rows|
  {
    if rows == [] then map[]
    else Table(rows[..|rows| - 1], lang)[rows[|rows| - 1].key := Text(rows[|rows| - 1], lang)]
  }

  /** `{ en, fr }` as cached and dispatched. */
  function Languages(rows: seq<LanguageRow>): Value
  {
    Obj(map["en" := Obj(Table(rows, En)), "fr" := Obj(Table(rows, Fr))])
  }

  function LanguageRows(reply: Reply<seq<LanguageRow>>): seq<LanguageRow>
  {
    if reply.Reply? && reply.data.Some? then reply.data.value else []
  }

  /** `GetLanguage`: GET_LANGUAGE on a 200, nothing otherwise. */
  function LanguageDispatches(reply: Reply<seq<LanguageRow>>): seq<Action>
  {
    if IsOk(reply) then [Action.GetLanguage(Languages(LanguageRows(reply)))] else []
  }

  /** Row `i` is the last row with its key. */
  predicate LastWithKey(rows: seq<LanguageRow>, i: int)
    requires 0 <= i < |rows|
  {
    forall j :: i < j < |rows| ==> rows[j].key != rows[i].key
  }

  // ---------------------------------------------------------------------
  // The creators
  // ---------------------------------------------------------------------

  method Loading(b: Browser)
    modifies b
    ensures b.dispatched == old(b.dispatched) + LoadingDispatches(old(b.state))
    ensures b.state == Run(old(b.state), LoadingDispatches(old(b.state)))
    ensures b.storage == old(b.storage) && b.session == old(b.session)
    ensures b.authorization == old(b.authorization) && b.requests == old(b.requests)
  {
    var snapshot := b.state;
    if !Truthy(snapshot.loading) {
      b.Dispatch(Action.Loading);
    }
  }

  method Loaded(b: Browser)
    modifies b
    ensures b.dispatched == old(b.dispatched) + LoadedDispatches(old(b.state))
    ensures b.state == Run(old(b.state), LoadedDispatches(old(b.state)))
    ensures b.storage == old(b.storage) && b.session == old(b.session)
    ensures b.authorization == old(b.authorization) && b.requests == old(b.requests)
  {
    var snapshot := b.state;
    if Truthy(snapshot.loading) {
      b.Dispatch(Action.Loaded);
    }
  }

  /** The snapshot is read before the PUT to the user-language endpoint; the
      request client never throws, and its reply is not read. */
  method ChangeLanguage(b: Browser, language: string)
    modifies b
    ensures b.storage == if old(b.state.language) != Str(language)
                         then old(b.storage)[LanguageKey := language] else old(b.storage)
    ensures b.dispatched == old(b.dispatched) + ChangeLanguageDispatches(old(b.state), language)
    ensures b.state == Run(old(b.state), ChangeLanguageDispatches(old(b.state), language))
    ensures b.session == old(b.session) && b.authorization == old(b.authorization) && b.requests == old(b.requests)
  {
    var snapshot := b.state;
    if snapshot.language != Str(language) {
      b.storage := b.storage[LanguageKey := language];
      b.Dispatch(Action.ChangeLanguage(Str(language)));
    }
  }

  method ChangeTheme(b: Browser, theme: string)
    modifies b
    ensures b.dispatched == old(b.dispatched) + ChangeThemeDispatches(old(b.state), theme)
    ensures b.state == Run(old(b.state), ChangeThemeDispatches(old(b.state), theme))
    ensures b.storage == old(b.storage) && b.session == old(b.session)
    ensures b.authorization == old(b.authorization) && b.requests == old(b.requests)
  {
    var snapshot := b.state;
    if snapshot.theme != Str(theme) {
      b.Dispatch(Action.ChangeLanguage(Undefined));
    }
  }

  /** Logging in stores both tokens and sets the header; logging out removes
      both tokens, clears the session cache and the header. */
  method SwitchAuthenticated(b: Browser, auth: AuthSwitch, tokens: Interceptors.TokenPair)
    modifies b
    ensures auth == LoggedIn ==>
      && b.storage == old(b.storage)[AccessTokenKey := tokens.accessToken][RefreshTokenKey := tokens.refreshToken]
      && b.session == old(b.session)
      && b.authorization == Interceptors.Bearer(tokens.accessToken)
    ensures auth == LoggedOut ==>
      && b.storage == old(b.storage) - {AccessTokenKey, RefreshTokenKey}
      && b.session == map[]
      && b.authorization == ""
    ensures b.dispatched == old(b.dispatched) + SwitchDispatches(auth)
    ensures b.state == Run(old(b.state), SwitchDispatches(auth))
    ensures b.requests == old(b.requests)
  {
    if auth == LoggedIn {
      b.storage := b.storage[AccessTokenKey := tokens.accessToken];
      b.storage := b.storage[RefreshTokenKey := tokens.refreshToken];
      Interceptors.SetToken(b, tokens.accessToken);
    } else {
      b.storage := b.storage - {AccessTokenKey};
      b.storage := b.storage - {RefreshTokenKey};
      b.session := map[];
      ghost var s0 := b.state;
      b.Dispatch(GetDataUser(Undefined));
      b.Dispatch(GetRolesUser(EmptyList));
      RunAppend(s0, [GetDataUser(Undefined)], [GetRolesUser(EmptyList)]);
      assert [GetDataUser(Undefined)] + [GetRolesUser(EmptyList)] == [GetDataUser(Undefined), GetRolesUser(EmptyList)];
      Interceptors.ClearToken(b);
    }
    b.Dispatch(Action.SwitchAuthenticated(auth));
    if auth == LoggedIn {
      assert b.state == Run(old(b.state), [Action.SwitchAuthenticated(LoggedIn)]);
    } else {
      RunAppend(old(b.state), [GetDataUser(Undefined), GetRolesUser(EmptyList)], [Action.SwitchAuthenticated(auth)]);
      assert [GetDataUser(Undefined), GetRolesUser(EmptyList)] + [Action.SwitchAuthenticated(auth)] == SwitchDispatches(auth);
    }
  }

  /** On a 200 the projected entries are cached and dispatched; on anything
      else nothing happens at all: the logout thunk built there is never
      dispatched. */
  method GetSiteConfiguration(b: Browser, reply: Reply<seq<Value>>)
    modifies b
    ensures IsOk(reply) ==>
      b.session == old(b.session)[ConfigCacheKey := List(ConfigEntries(reply.data))]
    ensures !IsOk(reply) ==> unchanged(b)
    ensures b.dispatched == old(b.dispatched) + ConfigurationDispatches(reply)
    ensures b.state == Run(old(b.state), ConfigurationDispatches(reply))
    ensures b.storage == old(b.storage) && b.authorization == old(b.authorization) && b.requests == old(b.requests)
  {
    if IsOk(reply) {
      var configs := List(ConfigEntries(reply.data));
      b.session := b.session[ConfigCacheKey := configs];
      b.Dispatch(GetConfiguration(configs));
    }
  }

  /** The `forEach` over the rows, filling both tables at once. */
  method BuildTables(rows: seq<LanguageRow>) returns (en: map<string, Value>, fr: map<string, Value>)
    ensures en == Table(rows, En) && fr == Table(rows, Fr)
  {
    en, fr := map[], map[];
    var i := 0;
    while i < |rows|
      invariant 0 <= i <= |rows|
      invariant en == Table(rows[..i], En) && fr == Table(rows[..i], Fr)
    {
      assert rows[..i + 1][..i] == rows[..i];
      en := en[rows[i].key := rows[i].valueEn];
      fr := fr[rows[i].key := rows[i].valueFr];
      i := i + 1;
    }
    assert rows[..|rows|] == rows;
  }

  /** On a 200 both tables are built, cached and dispatched; on anything else
      nothing happens. */
  method GetLanguage(b: Browser, reply: Reply<seq<LanguageRow>>)
    modifies b
    ensures IsOk(reply) ==> b.session == old(b.session)[LanguageCacheKey := Languages(LanguageRows(reply))]
    ensures !IsOk(reply) ==> unchanged(b)
    ensures b.dispatched == old(b.dispatched) + LanguageDispatches(reply)
    ensures b.state == Run(old(b.state), LanguageDispatches(reply))
    ensures b.storage == old(b.storage) && b.authorization == old(b.authorization) && b.requests == old(b.requests)
  {
    if IsOk(reply) {
      var rows := LanguageRows(reply);
      var en, fr := BuildTables(rows);
      var languages := Obj(map["en" := Obj(en), "fr" := Obj(fr)]);
      b.session := b.session[LanguageCacheKey := languages];
      b.Dispatch(Action.GetLanguage(languages));
    }
  }

  method FieldChange(b: Browser, fieldName: string, fieldValue: Value)
    modifies b
    ensures b.dispatched == old(b.dispatched) + [Action.FieldChange(fieldName, fieldValue)]
    ensures b.state == Run(old(b.state), [Action.FieldChange(fieldName, fieldValue)])
    ensures b.storage == old(b.storage) && b.session == old(b.session)
    ensures b.authorization == old(b.authorization) && b.requests == old(b.requests)
  {
    b.Dispatch(Action.FieldChange(fieldName, fieldValue));
  }

  // ---------------------------------------------------------------------
  // Properties
  // ---------------------------------------------------------------------

  /** `Loading` dispatches exactly when the snapshot is not loading, leaves the
      store loading, and a second `Loading` then dispatches nothing. */
  lemma LoadingIdempotent(s: State)
    ensures LoadingDispatches(s) != [] <==> !Truthy(Get(s, "loading"))
    ensures Truthy(Get(Run(s, LoadingDispatches(s)), "loading"))
    ensures LoadingDispatches(Run(s, LoadingDispatches(s))) == []
  {
    if !Truthy(s.loading) {
      assert Run(s, [Action.Loading]) == Run(Reducer(Some(s), Action.Loading), []);
    }
  }

  /** `Loaded` dispatches exactly when the snapshot is loading, leaves the
      store not loading, and a second `Loaded` then dispatches nothing. */
  lemma LoadedIdempotent(s: State)
    ensures LoadedDispatches(s) != [] <==> Truthy(Get(s, "loading"))
    ensures !Truthy(Get(Run(s, LoadedDispatches(s)), "loading"))
    ensures LoadedDispatches(Run(s, LoadedDispatches(s))) == []
  {
    if Truthy(s.loading) {
      assert Run(s, [Action.Loaded]) == Run(Reducer(Some(s), Action.Loaded), []);
    }
  }

  /** `ChangeTheme` never records the theme: after its dispatch the theme is
      unchanged, the language is undefined, and the same call dispatches
      again. */
  lemma ChangeThemeNeverSettles(s: State, theme: string)
    requires Get(s, "theme") != Str(theme)
    ensures Get(Run(s, ChangeThemeDispatches(s, theme)), "theme") == Get(s, "theme")
    ensures Get(Run(s, ChangeThemeDispatches(s, theme)), "language") == Undefined
    ensures ChangeThemeDispatches(Run(s, ChangeThemeDispatches(s, theme)), theme) == ChangeThemeDispatches(s, theme)
  {
    assert Run(s, [Action.ChangeLanguage(Undefined)]) == Run(Reducer(Some(s), Action.ChangeLanguage(Undefined)), []);
  }

  /** A logout through `SwitchAuthenticated` leaves the store unauthenticated
      with no languages and no permissions, and every other slot as it was. */
  lemma LogoutSwitchState(s: State)
    ensures Get(Run(s, SwitchDispatches(LoggedOut)), "isAuthenticated") == Bool(false)
    ensures Get(Run(s, SwitchDispatches(LoggedOut)), "languages") == EmptyList
    ensures Get(Run(s, SwitchDispatches(LoggedOut)), "permissions") == EmptyList
    ensures forall name :: name !in {"isAuthenticated", "languages", "permissions"} ==>
      Get(Run(s, SwitchDispatches(LoggedOut)), name) == Get(s, name)
  {
    var a1, a2, a3 := GetDataUser(Undefined), GetRolesUser(EmptyList), Action.SwitchAuthenticated(LoggedOut);
    assert SwitchDispatches(LoggedOut) == [a1, a2] + [a3];
    RunAppend(s, [a1, a2], [a3]);
    RunTwo(s, a1, a2);
    var s2 := Run(s, [a1, a2]);
    assert Run(s2, [a3]) == Run(Reducer(Some(s2), a3), []);
    NoOpMessages(s, a1);
    ReplaceSlot(s, a2);
    SwitchAuthenticatedEffect(s2, LoggedOut);
  }

  /** A failed configuration fetch does not log out: the store is left as it
      was. */
  lemma ConfigurationFailureKeepsSession(s: State, reply: Reply<seq<Value>>)
    requires !IsOk(reply)
    ensures Run(s, ConfigurationDispatches(reply)) == s
  {
  }

  /** The tables hold exactly the keys of the rows. */
  lemma {:induction false} TableKeys(rows: seq<LanguageRow>, lang: Lang)
    ensures Table(rows, lang).Keys == set r | r in rows :: r.key
    decreases |rows|
  {
    if rows != [] {
      var n := |rows| - 1;
      TableKeys(rows[..n], lang);
      assert rows == rows[..n] + [rows[n]];
      assert (set r | r in rows :: r.key) == (set r | r in rows[..n] :: r.key) + {rows[n].key};
    }
  }

  /** Each key of the tables holds the text of the last row carrying it. */
  lemma {:induction false} TableValues(rows: seq<LanguageRow>, lang: Lang)
    ensures forall i :: 0 <= i < |rows| && LastWithKey(rows, i) ==>
      rows[i].key in Table(rows, lang) && Table(rows, lang)[rows[i].key] == Text(rows[i], lang)
    decreases |rows|
  {
    if rows != [] {
      var n := |rows| - 1;
      var init := rows[..n];
      TableValues(init, lang);
      forall i | 0 <= i < |rows| && LastWithKey(rows, i)
        ensures rows[i].key in Table(rows, lang) && Table(rows, lang)[rows[i].key] == Text(rows[i], lang)
      {
        if i < n {
          assert rows[n].key != rows[i].key;
          assert LastWithKey(init, i) by {
            forall j | i < j < n ensures init[j].key != init[i].key { assert rows[j].key != rows[i].key; }
          }
        }
      }
    }
  }
}
