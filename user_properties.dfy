/** What `getUser` promises about the profile it assembles: when it
    succeeds, how the role fragment is merged, and what `tabs` holds. The
    first lemmas hold for any fragment and any tab list; the later ones apply
    them to what the dispatcher and `parseTab` produce. */
module UserProperties {
  import opened JsValue
  import opened Externals
  import opened Tabs
  import opened Roles
  import opened User

  /** An assembled profile is the generic fields, then the role data, then
      the fixed fields. */
  lemma AssembleParts(c: Collaborators, user: Value, fragment: Result<RoleFragment>, tabs: Result<seq<Tab>>)
    requires Assemble(c, user, fragment, tabs).Ok?
    ensures fragment.Ok? && !fragment.value.NoFragment? && tabs.Ok?
    ensures Assemble(c, user, fragment, tabs).value ==
      c.fromPronote(Prop(user, "ressource")) + RoleData(fragment.value)
      + ProfileFields(c, user, RoleAuthorizations(fragment.value), tabs.value)
  {
    var p := Parts(fragment.value).value;
    assert p == (RoleData(fragment.value), RoleAuthorizations(fragment.value));
    assert Assemble(c, user, fragment, tabs) ==
      Ok(c.fromPronote(Prop(user, "ressource")) + p.0 + ProfileFields(c, user, p.1, tabs.value));
  }

  /** Reading two of the fixed fields back. */
  lemma ProfileFieldsAt(c: Collaborators, user: Value, role: map<string, Value>, tabs: seq<Tab>)
    ensures var r := ProfileFields(c, user, role, tabs);
      && r["authorizations"] == Obj(MergeAuthorizations(GenericAuthorizations(c, Prop(user, "autorisations")), role))
      && r["tabs"] == Arr(TabValues(tabs))
  {
    assert "authorizations" !in AccessKeys;
  }

  /** Reading a key of the right-hand side of a spread. */
  lemma SpreadRight<K, V>(a: map<K, V>, b: map<K, V>, k: K)
    requires k in b
    ensures (a + b).Keys == a.Keys + b.Keys && (a + b)[k] == b[k]
  {
  }

  /** Spreading nothing between two objects adds no key. */
  lemma EmptyMiddleKeys<K, V>(a: map<K, V>, b: map<K, V>)
    ensures (a + map[] + b).Keys == a.Keys + b.Keys
  {
  }

  /** The `authorizations` of an assembled profile are the generic ones with
      the fragment's spread over them. */
  lemma AssembledAuthorizations(c: Collaborators, user: Value, fragment: Result<RoleFragment>, tabs: Result<seq<Tab>>)
    requires Assemble(c, user, fragment, tabs).Ok?
    ensures fragment.Ok?
    ensures Assemble(c, user, fragment, tabs).value["authorizations"] ==
      Obj(MergeAuthorizations(GenericAuthorizations(c, Prop(user, "autorisations")), RoleAuthorizations(fragment.value)))
  {
    AssembleParts(c, user, fragment, tabs);
    var role := RoleAuthorizations(fragment.value);
    ProfileFieldsAt(c, user, role, tabs.value);
    assert "authorizations" in SettingsKeys;
    SpreadRight(c.fromPronote(Prop(user, "ressource")) + RoleData(fragment.value), ProfileFields(c, user, role, tabs.value), "authorizations");
  }

  /** The `tabs` of an assembled profile are the normalised tabs, in order. */
  lemma AssembledTabs(c: Collaborators, user: Value, fragment: Result<RoleFragment>, tabs: Result<seq<Tab>>)
    requires Assemble(c, user, fragment, tabs).Ok?
    ensures tabs.Ok?
    ensures Assemble(c, user, fragment, tabs).value["tabs"] ==
      Arr(TabValues(tabs.value))
  {
    AssembleParts(c, user, fragment, tabs);
    var role := RoleAuthorizations(fragment.value);
    ProfileFieldsAt(c, user, role, tabs.value);
    assert "tabs" in AccessKeys;
    SpreadRight(c.fromPronote(Prop(user, "ressource")) + RoleData(fragment.value), ProfileFields(c, user, role, tabs.value), "tabs");
  }

  /** With the `{}` fragment, the profile holds the generic fields and the
      fixed fields only, and its `authorizations` are the generic ones. */
  lemma AssembledEmpty(c: Collaborators, user: Value, tabs: Result<seq<Tab>>)
    requires tabs.Ok?
    ensures Assemble(c, user, Ok(EmptyObject), tabs).Ok?
    ensures var p := Assemble(c, user, Ok(EmptyObject), tabs).value;
      && p.Keys == c.fromPronote(Prop(user, "ressource")).Keys + ProfileKeys
      && p["authorizations"] == Obj(GenericAuthorizations(c, Prop(user, "autorisations")))
  {
    AssembleParts(c, user, Ok(EmptyObject), tabs);
    AssembledAuthorizations(c, user, Ok(EmptyObject), tabs);
    assert RoleData(EmptyObject) == map[] && RoleAuthorizations(EmptyObject) == map[];
    EmptyMiddleKeys(c.fromPronote(Prop(user, "ressource")), ProfileFields(c, user, map[], tabs.value));
  }

  /** The profile is built exactly when the role is not `teacher`, a parent's
      `listeRessources` is an array, and the tab list is an array of tabs
      `parseTab` accepts. */
  lemma GetUserSucceeds(c: Collaborators, session: Session, user: Value)
    ensures GetUser(c, session, user).Ok? <==>
      && session.roleName != "teacher"
      && (session.roleName == "parent" ==> Prop(Prop(user, "ressource"), "listeRessources").Arr?)
      && Prop(user, "listeOnglets").Arr?
      && forall i :: 0 <= i < |Prop(user, "listeOnglets").items| ==> WellFormed(Prop(user, "listeOnglets").items[i])
  {
    UsableFragment(c, session, user);
  }

  /** A `teacher` session never yields a profile, not even an empty one: the
      destructuring of the dispatcher's `undefined` throws. */
  lemma TeacherFails(c: Collaborators, session: Session, user: Value)
    requires session.roleName == "teacher"
    ensures GetUser(c, session, user).Thrown?
    ensures GetUser(c, session, user).error == TypeError("Cannot destructure property 'data' of undefined")
  {
    Dispatch(c, session, user);
  }

  /** In the profile's `authorizations`, a key of the role fragment overrides
      the generic key of the same name, generic keys the fragment lacks keep
      their generic value, and the keys are those of both. */
  lemma AuthorizationsMerged(c: Collaborators, session: Session, user: Value)
    requires GetUser(c, session, user).Ok?
    ensures var p := GetUser(c, session, user).value;
      var generic := GenericAuthorizations(c, Prop(user, "autorisations"));
      var role := RoleAuthorizations(GetSpecificData(c, session, user).value);
      && p["authorizations"].Obj?
      && p["authorizations"].props.Keys == GenericAuthorizationKeys + role.Keys
      && (forall k :: k in role ==> p["authorizations"].props[k] == role[k])
      && (forall k :: k in generic && k !in role ==> p["authorizations"].props[k] == generic[k])
  {
    AssembledAuthorizations(c, user, GetSpecificData(c, session, user), ParseTabList(Prop(user, "listeOnglets")));
  }

  /** A role the `switch` does not list adds no data and no authorizations:
      the profile holds the generic fields and the fixed fields only, and its
      `authorizations` are the generic ones. */
  lemma UnlistedRoleAddsNothing(c: Collaborators, session: Session, user: Value)
    requires session.roleName !in Listed
    requires GetUser(c, session, user).Ok?
    ensures var p := GetUser(c, session, user).value;
      && p.Keys == c.fromPronote(Prop(user, "ressource")).Keys + ProfileKeys
      && p["authorizations"] == Obj(GenericAuthorizations(c, Prop(user, "autorisations")))
  {
    Dispatch(c, session, user);
    AssembledEmpty(c, user, ParseTabList(Prop(user, "listeOnglets")));
  }

  /** A student's `authorizations` are the generic ones plus
      `maxUserWorkFileSize`. */
  lemma StudentAuthorizations(c: Collaborators, session: Session, user: Value)
    requires session.roleName == "student"
    requires GetUser(c, session, user).Ok?
    ensures var p := GetUser(c, session, user).value;
      && p["authorizations"].Obj?
      && p["authorizations"].props.Keys == GenericAuthorizationKeys + {"maxUserWorkFileSize"}
      && p["authorizations"].props["maxUserWorkFileSize"]
         == Prop(Prop(user, "autorisations"), "tailleMaxRenduTafEleve")
  {
    StudentFragment(c, session, user);
    AuthorizationsMerged(c, session, user);
  }

  /** The profile's `tabs` has the length and order of `listeOnglets`: entry
      `i` is the normalised raw tab `i`. */
  lemma ProfileTabs(c: Collaborators, session: Session, user: Value)
    requires GetUser(c, session, user).Ok?
    ensures var p := GetUser(c, session, user).value;
      var raw := Prop(user, "listeOnglets");
      && raw.Arr? && p["tabs"].Arr? && |p["tabs"].items| == |raw.items|
      && forall i :: 0 <= i < |raw.items| ==>
           ParseTab(raw.items[i]).Ok? && p["tabs"].items[i] == TabValue(ParseTab(raw.items[i]).value)
  {
    var raw := Prop(user, "listeOnglets");
    var tabs := ParseTabList(raw);
    AssembledTabs(c, user, GetSpecificData(c, session, user), tabs);
    TabsOfList(raw);
  }

  /** The output list of a normalised tab list, read against the raw one. */
  lemma TabsOfList(raw: Value)
    requires ParseTabList(raw).Ok?
    ensures var out := TabValues(ParseTabList(raw).value);
      && raw.Arr? && |out| == |raw.items|
      && forall i :: 0 <= i < |raw.items| ==>
           ParseTab(raw.items[i]).Ok? && out[i] == TabValue(ParseTab(raw.items[i]).value)
  {
  }
}
