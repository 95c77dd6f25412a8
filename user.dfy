/** `getUser(session)`: assembles the user profile from the
    `ParametresUtilisateur` payload. The request itself is not modelled: the
    payload's `donnees` is the `user` parameter. */
module User {
  import opened JsValue
  import opened Externals
  import opened Tabs
  import opened Roles

  /** The object literal `{ ...generic, ...role }`: the role's fragment is
      spread after the generic fields, so on a shared key the role wins. */
  function MergeAuthorizations(generic: map<string, Value>, role: map<string, Value>): (r: map<string, Value>)
    ensures r.Keys == generic.Keys + role.Keys
    ensures forall k :: k in role ==> r[k] == role[k]
    ensures forall k :: k in generic && k !in role ==> r[k] == generic[k]
    ensures role == map[] ==> r == generic
  {
    generic + role
  }

  /** The authorizations every role gets. */
  function GenericAuthorizations(c: Collaborators, aut: Value): (r: map<string, Value>)
    ensures r.Keys == GenericAuthorizationKeys
  {
    var cours := Prop(aut, "cours");
    var compte := Prop(aut, "compte");
    map[
      "discussions" := Prop(aut, "AvecDiscussion"),
      "teachersDiscussions" := Prop(aut, "AvecDiscussionProfesseurs"),
      "timetableVisibleWeeks" := c.parse(Prop(cours, "domaineConsultationEDT")),
      "canEditLessons" := c.parse(Prop(cours, "domaineModificationCours")),
      "hideClassParts" := Prop(cours, "masquerPartiesDeClasse"),
      "maxEstablishmentFileSize" := Prop(aut, "tailleMaxDocJointEtablissement"),
      "editPassword" := Prop(compte, "avecSaisieMotDePasse"),
      "editPersonalInfo" := Prop(compte, "avecInformationsPersonnelles"),
      "canPrint" := Prop(aut, "autoriserImpression")]
  }

  const GenericAuthorizationKeys: set<string> := {
    "discussions", "teachersDiscussions", "timetableVisibleWeeks", "canEditLessons", "hideClassParts",
    "maxEstablishmentFileSize", "editPassword", "editPersonalInfo", "canPrint"}

  /** One entry of `establishmentsInfo`. */
  function EstablishmentInfo(c: Collaborators, raw: Value): (r: Value)
    ensures r.Obj? && r.props.Keys ==
      {"logoID", "address", "postalCode", "postalLabel", "city", "province", "country", "website"}
    ensures var coords := Prop(raw, "Coordonnees");
      r.props["address"] == Arr([Prop(coords, "Adresse1"), Prop(coords, "Adresse2")])
  {
    var coords := Prop(raw, "Coordonnees");
    Obj(map[
      "logoID" := c.parse(Prop(raw, "Logo")),
      "address" := Arr([Prop(coords, "Adresse1"), Prop(coords, "Adresse2")]),
      "postalCode" := Prop(coords, "CodePostal"),
      "postalLabel" := Prop(coords, "LibellePostal"),
      "city" := Prop(coords, "LibelleVille"),
      "province" := Prop(coords, "Province"),
      "country" := Prop(coords, "Pays"),
      "website" := Prop(coords, "SiteInternet")])
  }

  /** `userSettings`, from `user.parametresUtilisateur`. */
  function UserSettings(settings: Value): (r: Value)
    ensures r.Obj? && r.props.Keys == {"version", "timetable", "theme", "unreadDiscussions"}
    ensures r.props["timetable"] == TimetableSettings(Prop(settings, "EDT"))
  {
    Obj(map[
      "version" := Prop(settings, "version"),
      "timetable" := TimetableSettings(Prop(settings, "EDT")),
      "theme" := Prop(Prop(settings, "theme"), "theme"),
      "unreadDiscussions" := Prop(Prop(settings, "Communication"), "DiscussionNonLues")])
  }

  /** The `timetable` part of `userSettings`, from `EDT`. */
  function TimetableSettings(edt: Value): (r: Value)
    ensures r.Obj? && r.props.Keys == {
      "displayCanceledLessons", "invertAxis", "invertWeeklyPlanAxis", "invertDayPlanAxis", "invertDay2PlanAxis",
      "dayCount", "resourceCount", "daysInTimetable", "sequenceCount"}
  {
    Obj(map[
      "displayCanceledLessons" := Prop(edt, "afficherCoursAnnules"),
      "invertAxis" := Prop(edt, "axeInverseEDT"),
      "invertWeeklyPlanAxis" := Prop(edt, "axeInversePlanningHebdo"),
      "invertDayPlanAxis" := Prop(edt, "axeInversePlanningJour"),
      "invertDay2PlanAxis" := Prop(edt, "axeInversePlanningJour2"),
      "dayCount" := Prop(edt, "nbJours"),
      "resourceCount" := Prop(edt, "nbRessources"),
      "daysInTimetable" := Prop(edt, "nbJoursEDT"),
      "sequenceCount" := Prop(edt, "nbSequences")])
  }

  /** The keys of the object literal after `...fromPronote(res), ...data`. */
  const ProfileKeys: set<string> := SettingsKeys + AccessKeys

  const SettingsKeys: set<string> := {"establishmentsInfo", "userSettings", "sessionAuthorizations", "authorizations"}

  const AccessKeys: set<string> := {
    "minPasswordSize", "maxPasswordSize", "passwordRules", "kioskAccess", "tabs", "hiddenTabs", "notifiedTabs"}

  /** The fields `getUser` writes itself, given the role's authorizations and
      the normalised tabs. */
  function ProfileFields(c: Collaborators, user: Value, roleAuthorizations: map<string, Value>, tabs: seq<Tab>): (r: map<string, Value>)
    ensures r.Keys == ProfileKeys
  {
    SettingsFields(c, user, roleAuthorizations) + AccessFields(c, user, tabs)
  }

  /** The establishments, the settings and the two authorization objects. */
  function SettingsFields(c: Collaborators, user: Value, roleAuthorizations: map<string, Value>): (r: map<string, Value>)
    ensures r.Keys == SettingsKeys
    ensures r["authorizations"] == Obj(MergeAuthorizations(GenericAuthorizations(c, Prop(user, "autorisations")), roleAuthorizations))
  {
    var functions := Prop(Prop(user, "autorisationsSession"), "fonctionnalites");
    map[
      "establishmentsInfo" := c.parseWith(Prop(user, "listeInformationsEtablissements"), (e: Value) => EstablishmentInfo(c, e), None),
      "userSettings" := UserSettings(Prop(user, "parametresUtilisateur")),
      "sessionAuthorizations" := Obj(map[
        "twitterManagement" := Prop(functions, "gestionTwitter"),
        "expandedAttestation" := Prop(functions, "attestationEtendue")]),
      "authorizations" := Obj(MergeAuthorizations(GenericAuthorizations(c, Prop(user, "autorisations")), roleAuthorizations))]
  }

  /** The password rules, the kiosk access and the three tab lists. */
  function AccessFields(c: Collaborators, user: Value, tabs: seq<Tab>): (r: map<string, Value>)
    ensures r.Keys == AccessKeys
    ensures r["tabs"] == Arr(TabValues(tabs))
  {
    var passwordRules := Prop(user, "reglesSaisieMDP");
    map[
      "minPasswordSize" := Prop(passwordRules, "min"),
      "maxPasswordSize" := Prop(passwordRules, "max"),
      "passwordRules" := c.parse(Prop(passwordRules, "regles")),
      "kioskAccess" := Prop(user, "autorisationKiosque"),
      "tabs" := Arr(TabValues(tabs)),
      "hiddenTabs" := Prop(user, "listeOngletsInvisibles"),
      "notifiedTabs" := Prop(user, "listeOngletsNotification")]
  }

  /** The object literal `getUser` returns, once the dispatcher has produced
      `fragment` and `listeOnglets.map(parseTab)` has produced `tabs`: the
      destructuring of the fragment comes first, then the tab list. */
  function Assemble(c: Collaborators, user: Value, fragment: Result<RoleFragment>, tabs: Result<seq<Tab>>): (r: Result<map<string, Value>>)
    ensures r.Ok? <==> fragment.Ok? && Parts(fragment.value).Ok? && tabs.Ok?
    ensures fragment.Thrown? ==> r == Thrown(fragment.error)
    ensures fragment.Ok? && Parts(fragment.value).Thrown? ==> r == Thrown(Parts(fragment.value).error)
    ensures r.Ok? ==> ProfileKeys <= r.value.Keys
  {
    var f :- fragment;
    var parts :- Parts(f);
    var t :- tabs;
    Ok(c.fromPronote(Prop(user, "ressource")) + parts.0 + ProfileFields(c, user, parts.1, t))
  }

  /** `getUser(session)` once the request has returned `user`. It throws when
      the role fragment cannot be destructured and when the tab list cannot
      be normalised. */
  function GetUser(c: Collaborators, session: Session, user: Value): (r: Result<map<string, Value>>)
    ensures r.Ok? ==> ProfileKeys <= r.value.Keys
    ensures session.roleName == "teacher" ==> r.Thrown?
    ensures !Prop(user, "listeOnglets").Arr? ==> r.Thrown?
  {
    Assemble(c, user, GetSpecificData(c, session, user), ParseTabList(Prop(user, "listeOnglets")))
  }
}
