/** The context slice of the application store (src/store/context/Reducer.ts):
    its state, the closed set of transition messages and the pure reducer
    that applies one message to a state. */
module ContextReducer {
  import opened Values

  /** Argument of SWITCH_AUTHENTICATED: entering or leaving a session. */
  datatype AuthSwitch = LoggedIn | LoggedOut

  /** The context state. Every declared slot holds a dynamically typed value,
      because the generic FIELD_CHANGE message may overwrite any of them with
      anything; `dynamic` holds the top-level properties that FIELD_CHANGE
      creates under names the state does not declare. `item` and `listItems`
      are objects keyed by data type. */
  datatype State = State(
    loading: Value,
    language: Value,
    theme: Value,
    isAuthenticated: Value,
    permissions: Value,
    languages: Value,
    siteConfiguration: Value,
    item: Value,
    listItems: Value,
    dynamic: map<string, Value>)

  /** The state the store starts from. The file that declares it is not part
      of this model; the slot values below are placeholders and nothing proved
      here depends on them. */
  const InitState: State := State(
    Bool(false), Undefined, Undefined, Bool(false), EmptyList, EmptyObject,
    EmptyList, EmptyObject, EmptyObject, map[])

  /** A transition message. The action type constants are opaque tags; every
      type the reducer has no case for (SWITCH_ROLE, SWITCH_APP, the router's
      'Signin', ...) is an `Other` message. */
  datatype Action =
    | Loading
    | Loaded
    | ChangeLanguage(language: Value)
    | ChangeTheme(theme: Value)
    | RequestItems(dataType: string)
    | RequestItem(dataType: string, itemId: Value)
    | FieldChange(fieldName: string, fieldValue: Value)
    | FormFieldChange(dataType: string, fieldName: string, fieldValue: Value)
    | NewForm(dataType: string, schema: Value)
    | UpdateForm(dataType: string, item: Value)
    | SwitchAuthenticated(auth: AuthSwitch)
    | GetDataUser(user: Value)
    | GetConfiguration(configs: Value)
    | GetRolesUser(permissions: Value)
    | GetLanguage(languages: Value)
    | Other(kind: string, payload: Value)

  /** `state[name]`: the top-level property `name`, as code that reads the
      state by a computed key sees it. */
  function Get(s: State, name: string): Value
  {
    if name == "loading" then s.loading
    else if name == "language" then s.language
    else if name == "theme" then s.theme
    else if name == "isAuthenticated" then s.isAuthenticated
    else if name == "permissions" then s.permissions
    else if name == "languages" then s.languages
    else if name == "siteConfiguration" then s.siteConfiguration
    else if name == "item" then s.item
    else if name == "listItems" then s.listItems
    else if name in s.dynamic then s.dynamic[name]
    else Undefined
  }

  /** `{ ...s, [name]: v }`: the copy of `s` whose property `name` is `v`. */
  function Put(s: State, name: string, v: Value): State
  {
    if name == "loading" then s.(loading := v)
    else if name == "language" then s.(language := v)
    else if name == "theme" then s.(theme := v)
    else if name == "isAuthenticated" then s.(isAuthenticated := v)
    else if name == "permissions" then s.(permissions := v)
    else if name == "languages" then s.(languages := v)
    else if name == "siteConfiguration" then s.(siteConfiguration := v)
    else if name == "item" then s.(item := v)
    else if name == "listItems" then s.(listItems := v)
    else s.(dynamic := s.dynamic[name := v])
  }

  /** `state.item?.[dataType]`: the form being edited for a data type. */
  function ItemOf(s: State, dataType: string): Value
  {
    Lookup(s.item, dataType)
  }

  /** `state.listItems?.[dataType]`: the list loaded for a data type. */
  function ListOf(s: State, dataType: string): Value
  {
    Lookup(s.listItems, dataType)
  }

  /** The reducer. An absent state yields the initial state whatever the
      message; otherwise each case copies the state and overwrites the slots
      it names. CHANGE_THEME writes its theme into `language`, as the source
      does. Whatever the message, the slots outside its `Writes` set keep
      their values. */
  function Reducer(state: Option<State>, action: Action): (r: State)
    ensures state.Some? ==> forall name :: name !in Writes(action) ==> Get(r, name) == Get(state.value, name)
  {
    match state
    case None => InitState
    case Some(s) =>
      match action
      case Loading => s.(loading := Bool(true))
      case Loaded => s.(loading := Bool(false))
      case ChangeLanguage(language) => s.(language := language)
      case ChangeTheme(theme) => s.(language := theme)
      case RequestItems(d) => s.(listItems := Obj(Spread(s.listItems)[d := EmptyList]))
      case RequestItem(d, _) => s.(item := Obj(Spread(s.item)[d := EmptyObject]))
      case FieldChange(name, v) => Put(s, name, v)
      case FormFieldChange(d, f, v) =>
        s.(item := Obj(Spread(s.item)[d := Obj(Spread(Lookup(s.item, d))[f := v])]))
      case NewForm(d, _) => s.(item := Obj(Spread(s.item)[d := EmptyObject]))
      case UpdateForm(d, it) => s.(item := Obj(Spread(s.item)[d := it]))
      case SwitchAuthenticated(auth) =>
        if auth == LoggedIn then s.(isAuthenticated := Bool(true))
        else s.(isAuthenticated := Bool(false), languages := EmptyList, permissions := EmptyList)
      case GetDataUser(_) => s
      case GetConfiguration(configs) => s.(siteConfiguration := configs)
      case GetRolesUser(permissions) => s.(permissions := permissions)
      case GetLanguage(languages) => s.(languages := languages)
      case Other(_, _) => s
  }

  /** The store after dispatching `actions` in order, starting from `s`. */
  function Run(s: State, actions: seq<Action>): State
    decreases |actions|
  {
    if actions == [] then s else Run(Reducer(Some(s), actions[0]), actions[1..])
  }

  /** The top-level properties a message may change: a reference for the
      frame of every reducer case. */
  function Writes(action: Action): set<string>
  {
    match action
    case Loading => {"loading"}
    case Loaded => {"loading"}
    case ChangeLanguage(_) => {"language"}
    case ChangeTheme(_) => {"language"}
    case RequestItems(_) => {"listItems"}
    case RequestItem(_, _) => {"item"}
    case FieldChange(name, _) => {name}
    case FormFieldChange(_, _, _) => {"item"}
    case NewForm(_, _) => {"item"}
    case UpdateForm(_, _) => {"item"}
    case SwitchAuthenticated(auth) =>
      if auth == LoggedIn then {"isAuthenticated"} else {"isAuthenticated", "languages", "permissions"}
    case GetDataUser(_) => {}
    case GetConfiguration(_) => {"siteConfiguration"}
    case GetRolesUser(_) => {"permissions"}
    case GetLanguage(_) => {"languages"}
    case Other(_, _) => {}
  }

  // ---------------------------------------------------------------------
  // Properties of single transitions
  // ---------------------------------------------------------------------

  /** An undefined state becomes the initial state, whatever the message. */
  lemma UndefinedStateYieldsInit(action: Action)
    ensures Reducer(None, action) == InitState
  {
  }

  /** FIELD_CHANGE stores its value under its (arbitrary) name and nothing
      else, whether the name is a declared slot or not. */
  lemma FieldChangeWrites(s: State, name: string, v: Value)
    ensures Get(Reducer(Some(s), FieldChange(name, v)), name) == v
    ensures forall other :: other != name ==> Get(Reducer(Some(s), FieldChange(name, v)), other) == Get(s, other)
  {
  }

  /** LOADING raises the loading flag, LOADED lowers it; nothing else changes. */
  lemma LoadingFlag(s: State)
    ensures Get(Reducer(Some(s), Loading), "loading") == Bool(true)
    ensures Get(Reducer(Some(s), Loaded), "loading") == Bool(false)
    ensures forall name :: name != "loading" ==>
      Get(Reducer(Some(s), Loading), name) == Get(s, name) && Get(Reducer(Some(s), Loaded), name) == Get(s, name)
  {
  }

  /** NEW_FORM and REQUEST_ITEM reset the form of one data type to `{}` and
      keep every other data type's form and every other slot. */
  lemma FormReset(s: State, action: Action)
    requires action.NewForm? || action.RequestItem?
    ensures ItemOf(Reducer(Some(s), action), action.dataType) == EmptyObject
    ensures forall d :: d != action.dataType ==> ItemOf(Reducer(Some(s), action), d) == ItemOf(s, d)
    ensures Spread(Reducer(Some(s), action).item).Keys == Spread(s.item).Keys + {action.dataType}
    ensures forall name :: name != "item" ==> Get(Reducer(Some(s), action), name) == Get(s, name)
  {
  }

  /** REQUEST_ITEMS resets the list of one data type to `[]` and keeps every
      other data type's list and every other slot. */
  lemma ListReset(s: State, dataType: string)
    ensures ListOf(Reducer(Some(s), RequestItems(dataType)), dataType) == EmptyList
    ensures forall d :: d != dataType ==> ListOf(Reducer(Some(s), RequestItems(dataType)), d) == ListOf(s, d)
    ensures forall name :: name != "listItems" ==> Get(Reducer(Some(s), RequestItems(dataType)), name) == Get(s, name)
  {
  }

  /** FORM_FIELD_CHANGE sets one field of one data type's form, keeping that
      form's other fields (an absent form counts as `{}`) and the other data
      types' forms. */
  lemma FormFieldChangeWrites(s: State, dataType: string, field: string, v: Value)
    ensures Lookup(ItemOf(Reducer(Some(s), FormFieldChange(dataType, field, v)), dataType), field) == v
    ensures forall f :: f != field ==>
      Lookup(ItemOf(Reducer(Some(s), FormFieldChange(dataType, field, v)), dataType), f) == Lookup(ItemOf(s, dataType), f)
    ensures !ItemOf(s, dataType).Obj? ==>
      ItemOf(Reducer(Some(s), FormFieldChange(dataType, field, v)), dataType) == Obj(map[field := v])
    ensures forall d :: d != dataType ==>
      ItemOf(Reducer(Some(s), FormFieldChange(dataType, field, v)), d) == ItemOf(s, d)
    ensures forall name :: name != "item" ==>
      Get(Reducer(Some(s), FormFieldChange(dataType, field, v)), name) == Get(s, name)
  {
  }

  /** UPDATE_FORM replaces one data type's form by the given item (it does
      not merge) and keeps the other data types' forms. */
  lemma UpdateFormReplaces(s: State, dataType: string, it: Value)
    ensures ItemOf(Reducer(Some(s), UpdateForm(dataType, it)), dataType) == it
    ensures forall d :: d != dataType ==> ItemOf(Reducer(Some(s), UpdateForm(dataType, it)), d) == ItemOf(s, d)
    ensures forall name :: name != "item" ==> Get(Reducer(Some(s), UpdateForm(dataType, it)), name) == Get(s, name)
  {
  }

  /** SWITCH_AUTHENTICATED: logging in only raises the flag; logging out lowers
      it and empties the languages and permissions. */
  lemma SwitchAuthenticatedEffect(s: State, auth: AuthSwitch)
    ensures auth == LoggedIn ==>
      Reducer(Some(s), SwitchAuthenticated(auth)) == Put(s, "isAuthenticated", Bool(true))
    ensures auth == LoggedOut ==>
      && Get(Reducer(Some(s), SwitchAuthenticated(auth)), "isAuthenticated") == Bool(false)
      && Get(Reducer(Some(s), SwitchAuthenticated(auth)), "languages") == EmptyList
      && Get(Reducer(Some(s), SwitchAuthenticated(auth)), "permissions") == EmptyList
    ensures forall name :: name !in {"isAuthenticated", "languages", "permissions"} ==>
      Get(Reducer(Some(s), SwitchAuthenticated(auth)), name) == Get(s, name)
  {
  }

  /** GET_DATA_USER and every message the reducer has no case for leave the
      state equal to what it was. */
  lemma NoOpMessages(s: State, action: Action)
    requires action.GetDataUser? || action.Other?
    ensures Reducer(Some(s), action) == s
  {
  }

  /** CHANGE_THEME stores its theme in `language` and leaves `theme` and
      every other slot as they were. */
  lemma ChangeThemeWritesLanguage(s: State, theme: Value)
    ensures Get(Reducer(Some(s), ChangeTheme(theme)), "language") == theme
    ensures forall name :: name != "language" ==> Get(Reducer(Some(s), ChangeTheme(theme)), name) == Get(s, name)
  {
  }

  /** CHANGE_LANGUAGE, GET_CONFIGURATION, GET_ROLES_USER and GET_LANGUAGE
      replace one slot wholesale by the message's payload (no merge) and keep
      every other slot. */
  lemma ReplaceSlot(s: State, action: Action)
    requires action.ChangeLanguage? || action.GetConfiguration? || action.GetRolesUser? || action.GetLanguage?
    ensures action.ChangeLanguage? ==> Get(Reducer(Some(s), action), "language") == action.language
    ensures action.GetConfiguration? ==> Get(Reducer(Some(s), action), "siteConfiguration") == action.configs
    ensures action.GetRolesUser? ==> Get(Reducer(Some(s), action), "permissions") == action.permissions
    ensures action.GetLanguage? ==> Get(Reducer(Some(s), action), "languages") == action.languages
    ensures forall name :: name !in Writes(action) ==> Get(Reducer(Some(s), action), name) == Get(s, name)
    ensures |Writes(action)| == 1
  {
  }

  /** The theme slot is never written except by a FIELD_CHANGE naming it:
      in particular CHANGE_THEME leaves it as it was. */
  lemma ThemeOnlyByFieldChange(s: State, action: Action)
    requires Get(Reducer(Some(s), action), "theme") != Get(s, "theme")
    ensures action == FieldChange("theme", action.fieldValue)
  {
  }

  // ---------------------------------------------------------------------
  // Properties of message sequences
  // ---------------------------------------------------------------------

  /** Dispatching `xs` then `ys` is dispatching `xs + ys`. */
  lemma {:induction false} RunAppend(s: State, xs: seq<Action>, ys: seq<Action>)
    ensures Run(s, xs + ys) == Run(Run(s, xs), ys)
    decreases |xs|
  {
    if xs == [] {
      assert xs + ys == ys;
    } else {
      assert (xs + ys)[0] == xs[0];
      assert (xs + ys)[1..] == xs[1..] + ys;
      RunAppend(Reducer(Some(s), xs[0]), xs[1..], ys);
    }
  }

  /** Dispatching two messages is reducing by the first, then the second. */
  lemma RunTwo(s: State, a: Action, b: Action)
    ensures Run(s, [a, b]) == Reducer(Some(Reducer(Some(s), a)), b)
  {
    var s1 := Reducer(Some(s), a);
    assert [a, b][1..] == [b];
    assert Run(s, [a, b]) == Run(s1, [b]);
    assert [b][1..] == [];
    assert Run(s1, [b]) == Run(Reducer(Some(s1), b), []);
  }

  /** UPDATE_FORM discards whatever field edits came before it. */
  lemma UpdateFormAfterEdit(s: State, dataType: string, field: string, v: Value, it: Value)
    ensures ItemOf(Run(s, [FormFieldChange(dataType, field, v), UpdateForm(dataType, it)]), dataType) == it
  {
    var s1 := Reducer(Some(s), FormFieldChange(dataType, field, v));
    RunTwo(s, FormFieldChange(dataType, field, v), UpdateForm(dataType, it));
    UpdateFormReplaces(s1, dataType, it);
  }

  /** NEW_FORM discards whatever field edits came before it. */
  lemma NewFormAfterEdit(s: State, dataType: string, field: string, v: Value, schema: Value)
    ensures ItemOf(Run(s, [FormFieldChange(dataType, field, v), NewForm(dataType, schema)]), dataType) == EmptyObject
  {
    var s1 := Reducer(Some(s), FormFieldChange(dataType, field, v));
    RunTwo(s, FormFieldChange(dataType, field, v), NewForm(dataType, schema));
    FormReset(s1, NewForm(dataType, schema));
  }
}
