/** `getSpecificData(session, data)`: the role dispatcher and the handlers of
    the student, parent and administration roles. Each handler returns
    `{ data, authorizations }`: fields spread into the profile, and fields
    spread into its `authorizations`. */
module Roles {
  import opened JsValue
  import opened Externals
  import opened Student
  import Hours

  /** What the dispatcher returns. */
  datatype RoleFragment =
    /** `{ data, authorizations }` from a role handler. */
    | Fragment(data: map<string, Value>, authorizations: map<string, Value>)
    /** The `{}` of the `default` branch. */
    | EmptyObject
    /** The `undefined` of the `teacher` branch, which only breaks. */
    | NoFragment

  /** `const { data, authorizations } = fragment`, followed by the two spreads
      `...data` and `...authorizations`. Destructuring `undefined` throws; the
      properties of `{}` are `undefined`, and spreading `undefined` adds
      nothing. */
  function Parts(f: RoleFragment): (r: Result<(map<string, Value>, map<string, Value>)>)
    ensures r.Thrown? <==> f.NoFragment?
    ensures f.EmptyObject? ==> r == Ok((map[], map[]))
    ensures f.Fragment? ==> r == Ok((f.data, f.authorizations))
    ensures r.Ok? ==> r.value == (RoleData(f), RoleAuthorizations(f))
  {
    match f
    case Fragment(data, authorizations) => Ok((data, authorizations))
    case EmptyObject => Ok((map[], map[]))
    case NoFragment => Thrown(TypeError("Cannot destructure property 'data' of undefined"))
  }

  /** The fields a fragment spreads into the profile. */
  function RoleData(f: RoleFragment): map<string, Value>
  {
    if f.Fragment? then f.data else map[]
  }

  /** The fields a fragment spreads into the profile's `authorizations`. */
  function RoleAuthorizations(f: RoleFragment): map<string, Value>
  {
    if f.Fragment? then f.authorizations else map[]
  }

  /** `getStudentData(session, data)`. */
  function StudentData(c: Collaborators, session: Session, user: Value): (r: RoleFragment)
    ensures r.Fragment? && StudentKeys <= r.data.Keys
    ensures r.authorizations.Keys == {"maxUserWorkFileSize"}
    ensures r.authorizations["maxUserWorkFileSize"] == Prop(Prop(user, "autorisations"), "tailleMaxRenduTafEleve")
  {
    Fragment(
      GetStudent(c, session, Prop(user, "ressource")),
      map["maxUserWorkFileSize" := Prop(Prop(user, "autorisations"), "tailleMaxRenduTafEleve")])
  }

  /** `getDateWithHours(parse(date), hours)` on the value level: a date
      advanced by the offset of an hour string. Each call of `parse(date)` is
      taken to yield its own date; `Hours.SessionTimes` covers the case where
      both calls yield the same object. */
  function DateWithHoursValue(date: Value, hours: Value): (r: Value)
    ensures date.DateVal? && hours.Str? ==> r == DateVal(Hours.DateWithHours(date.time, hours.s))
  {
    if date.DateVal? && hours.Str? then DateVal(Hours.DateWithHours(date.time, hours.s)) else Undefined
  }

  /** One entry of a child's `sessions`: `{ from, to }`. */
  function SessionEntry(c: Collaborators, raw: Value): (r: Value)
    ensures r.Obj? && r.props.Keys == {"from", "to"}
    ensures Prop(raw, "strHeureDebut") == Prop(raw, "strHeureFin") ==> r.props["from"] == r.props["to"]
  {
    Obj(map[
      "from" := DateWithHoursValue(c.parse(Prop(raw, "date")), Prop(raw, "strHeureDebut")),
      "to" := DateWithHoursValue(c.parse(Prop(raw, "date")), Prop(raw, "strHeureFin"))])
  }

  /** One of a parent's children: `fromPronote(r, ...)`, whose callback
      builds the child's record. */
  function ParentStudent(c: Collaborators, session: Session, r: Value): (v: Value)
    ensures v.Obj?
  {
    Obj(c.fromPronoteWith(r, (x: Value) => ChildRecord(c, session, r, x)))
  }

  /** The callback of `fromPronote` for a child: the student record of `r`,
      extended by the `sessions` read from the callback's argument `x`. */
  function ChildRecord(c: Collaborators, session: Session, r: Value, x: Value): (m: map<string, Value>)
    ensures m.Keys == GetStudent(c, session, r).Keys + {"sessions"}
    ensures forall k :: k in GetStudent(c, session, r) && k != "sessions" ==> m[k] == GetStudent(c, session, r)[k]
    ensures m["sessions"] == c.parseWith(Prop(x, "listeSessions"), (e: Value) => SessionEntry(c, e), None)
  {
    GetStudent(c, session, r)
    + map["sessions" := c.parseWith(Prop(x, "listeSessions"), (e: Value) => SessionEntry(c, e), None)]
  }

  /** `getParentData(session, data)`. It throws when `res.listeRessources`
      is not an array, since `.map` is then not a function. */
  function ParentData(c: Collaborators, session: Session, user: Value): (r: Result<RoleFragment>)
    ensures r.Ok? <==> Prop(Prop(user, "ressource"), "listeRessources").Arr?
    ensures r.Ok? ==> r.value.Fragment? && "students" in r.value.data
    ensures r.Ok? ==>
      var children := Prop(Prop(user, "ressource"), "listeRessources").items;
      && r.value.data["students"].Arr?
      && |r.value.data["students"].items| == |children|
      && forall i :: 0 <= i < |children| ==> r.value.data["students"].items[i] == ParentStudent(c, session, children[i])
  {
    var res := Prop(user, "ressource");
    var aut := Prop(user, "autorisations");
    var compte := Prop(aut, "compte");
    var children := Prop(res, "listeRessources");
    if !children.Arr? then Thrown(TypeError("res.listeRessources.map is not a function"))
    else
      Ok(Fragment(
        map[
          "isDelegate" := Prop(res, "estDelegue"),
          "isBDMember" := Prop(res, "estMembreCA"),
          "canDiscussWithManagers" := Prop(res, "avecDiscussionResponsables"),
          "absencesReasons" := c.parse(Prop(user, "listeMotifsAbsences")),
          "delaysReasons" := c.parse(Prop(user, "listeMotifsRetards")),
          "classDelegates" := c.parse(Prop(res, "listeClassesDelegue")),
          "students" := Arr(seq(|children.items|, i requires 0 <= i < |children.items| =>
                              ParentStudent(c, session, children.items[i])))],
        map[
          "staffDiscussion" := Prop(aut, "AvecDiscussionPersonnels"),
          "parentsDiscussion" := Prop(aut, "AvecDiscussionParents"),
          "editStudentPassword" := Prop(compte, "avecSaisieMotDePasseEleve"),
          "editCoordinates" := Prop(compte, "avecSaisieInfosPersoCoordonnees"),
          "editAuthorizations" := Prop(compte, "avecSaisieInfosPersoAutorisations")]))
  }

  /** The `intendance`, `cours` and `compte` groups of the administration
      authorizations. */
  function AdministrationGroups(aut: Value): (r: map<string, Value>)
    ensures r.Keys == AdministrationGroupKeys
    ensures r["intendance"].Obj? && r["intendance"].props.Keys ==
      {"avecDemandeTravauxIntendance", "avecExecutionTravauxIntendance"}
    ensures r["cours"].Obj? && r["cours"].props.Keys == {
      "avecReservationCreneauxLibres", "modificationNonLimiteAuxSemaine", "avecMateriel", "avecFicheCoursConseil",
      "afficherElevesDetachesDansCours"}
    ensures r["compte"].Obj? && r["compte"].props.Keys ==
      {"avecSaisieInfosPersoCoordonnees", "avecSaisieInfosPersoAutorisations"}
  {
    var intendance := Prop(aut, "intendance");
    var cours := Prop(aut, "cours");
    var compte := Prop(aut, "compte");
    map[
      "intendance" := Obj(map[
        "avecDemandeTravauxIntendance" := Prop(intendance, "avecDemandeTravauxIntendance"),
        "avecExecutionTravauxIntendance" := Prop(intendance, "avecExecutionTravauxIntendance")]),
      "services" := Prop(aut, "services"),
      "autoriseAConsulterPhotosDeTousLesEleves" := Prop(aut, "autoriseAConsulterPhotosDeTousLesEleves"),
      "cours" := Obj(map[
        "avecReservationCreneauxLibres" := Prop(cours, "avecReservationCreneauxLibres"),
        "modificationNonLimiteAuxSemaine" := Prop(cours, "modificationNonLimiteAuxSemaine"),
        "avecMateriel" := Prop(cours, "avecMateriel"),
        "avecFicheCoursConseil" := Prop(cours, "avecFicheCoursConseil"),
        "afficherElevesDetachesDansCours" := Prop(cours, "afficherElevesDetachesDansCours")]),
      "avecSaisieDocumentsCasiers" := Prop(aut, "avecSaisieDocumentsCasiers"),
      "compte" := Obj(map[
        "avecSaisieInfosPersoCoordonnees" := Prop(compte, "avecSaisieInfosPersoCoordonnees"),
        "avecSaisieInfosPersoAutorisations" := Prop(compte, "avecSaisieInfosPersoAutorisations")])]
  }

  /** The names of the entries after the flags: the nested groups and the
      fields between them. */
  const AdministrationGroupKeys: set<string> := {
    "intendance", "services", "autoriseAConsulterPhotosDeTousLesEleves", "cours", "avecSaisieDocumentsCasiers", "compte"}

  /** The administration flags for consulting student records and photos, and the messaging channels. */
  const ConsultationKeys: set<string> := {
    "consulterIdentiteEleve", "consulterFichesResponsables", "consulterPhotosEleves", "avecDiscussionParents",
    "avecMessageInstantane", "estDestinataireChat", "avecContactVS", "lancerAlertesPPMS",
    "avecDiscussionAvancee"}

  function ConsultationFlags(aut: Value): (r: map<string, Value>)
    ensures r.Keys == ConsultationKeys
  {
    map[
      "consulterIdentiteEleve" := Prop(aut, "ConsulterIdentiteEleve"),
      "consulterFichesResponsables" := Prop(aut, "ConsulterFichesResponsables"),
      "consulterPhotosEleves" := Prop(aut, "ConsulterPhotosEleves"),
      "avecDiscussionParents" := Prop(aut, "AvecDiscussionParents"),
      "avecMessageInstantane" := Prop(aut, "avecMessageInstantane"),
      "estDestinataireChat" := Prop(aut, "estDestinataireChat"),
      "avecContactVS" := Prop(aut, "AvecContactVS"),
      "lancerAlertesPPMS" := Prop(aut, "lancerAlertesPPMS"),
      "avecDiscussionAvancee" := Prop(aut, "AvecDiscussionAvancee")]
  }

  /** The administration flags for entering pathways, roll calls, lessons and attendance grids. */
  const LessonEntryKeys: set<string> := {
    "avecSaisieParcoursPedagogique", "avecSaisieAppelEtVS", "avecSaisieCours", "avecSaisieAbsenceRepas",
    "avecSaisieHorsCours", "avecSaisieSurGrille", "avecSaisieSurGrilleAppelProf"}

  function LessonEntryFlags(aut: Value): (r: map<string, Value>)
    ensures r.Keys == LessonEntryKeys
  {
    map[
      "avecSaisieParcoursPedagogique" := Prop(aut, "avecSaisieParcoursPedagogique"),
      "avecSaisieAppelEtVS" := Prop(aut, "AvecSaisieAppelEtVS"),
      "avecSaisieCours" := Prop(aut, "AvecSaisieCours"),
      "avecSaisieAbsenceRepas" := Prop(aut, "AvecSaisieAbsenceRepas"),
      "avecSaisieHorsCours" := Prop(aut, "AvecSaisieHorsCours"),
      "avecSaisieSurGrille" := Prop(aut, "AvecSaisieSurGrille"),
      "avecSaisieSurGrilleAppelProf" := Prop(aut, "AvecSaisieSurGrilleAppelProf")]
  }

  /** The administration flags for entering absences, lateness, infirmary visits, exclusions and punishments. */
  const IncidentEntryKeys: set<string> := {
    "avecSaisieAbsence", "avecSaisieRetard", "avecSaisieMotifRetard", "avecSaisiePassageInfirmerie",
    "avecSaisieExclusion", "avecSaisiePunition"}

  function IncidentEntryFlags(aut: Value): (r: map<string, Value>)
    ensures r.Keys == IncidentEntryKeys
  {
    map[
      "avecSaisieAbsence" := Prop(aut, "AvecSaisieAbsence"),
      "avecSaisieRetard" := Prop(aut, "AvecSaisieRetard"),
      "avecSaisieMotifRetard" := Prop(aut, "AvecSaisieMotifRetard"),
      "avecSaisiePassageInfirmerie" := Prop(aut, "AvecSaisiePassageInfirmerie"),
      "avecSaisieExclusion" := Prop(aut, "AvecSaisieExclusion"),
      "avecSaisiePunition" := Prop(aut, "AvecSaisiePunition")]
  }

  /** The administration flags for event access, absence grids and follow-up, and assessments. */
  const AbsenceKeys: set<string> := {
    "avecAccesAuxEvenementsAutresCours", "avecSaisieAbsencesToutesPermanences",
    "avecSaisieAbsencesGrilleAbsencesRepas", "avecSaisieAbsencesGrilleAbsencesInternat",
    "avecSuiviAbsenceRetard", "dateSaisieAbsence", "avecSaisieEvaluations"}

  function AbsenceFlags(aut: Value): (r: map<string, Value>)
    ensures r.Keys == AbsenceKeys
  {
    map[
      "avecAccesAuxEvenementsAutresCours" := Prop(aut, "AvecAccesAuxEvenementsAutresCours"),
      "avecSaisieAbsencesToutesPermanences" := Prop(aut, "AvecSaisieAbsencesToutesPermanences"),
      "avecSaisieAbsencesGrilleAbsencesRepas" := Prop(aut, "AvecSaisieAbsencesGrilleAbsencesRepas"),
      "avecSaisieAbsencesGrilleAbsencesInternat" := Prop(aut, "AvecSaisieAbsencesGrilleAbsencesInternat"),
      "avecSuiviAbsenceRetard" := Prop(aut, "AvecSuiviAbsenceRetard"),
      "dateSaisieAbsence" := Prop(aut, "DateSaisieAbsence"),
      "avecSaisieEvaluations" := Prop(aut, "AvecSaisieEvaluations")]
  }

  /** The administration flags for class-wide communication, agenda, news, mailing lists, files and memos. */
  const PublicationKeys: set<string> := {
    "autoriserCommunicationsToutesClasses", "avecSaisieAgenda", "avecSaisieActualite",
    "avecPublicationListeDiffusion", "publierDossiersVS", "consulterMemosEleve", "saisirMemos",
    "avecSaisieDispense"}

  function PublicationFlags(aut: Value): (r: map<string, Value>)
    ensures r.Keys == PublicationKeys
  {
    map[
      "autoriserCommunicationsToutesClasses" := Prop(aut, "AutoriserCommunicationsToutesClasses"),
      "avecSaisieAgenda" := Prop(aut, "AvecSaisieAgenda"),
      "avecSaisieActualite" := Prop(aut, "AvecSaisieActualite"),
      "avecPublicationListeDiffusion" := Prop(aut, "avecPublicationListeDiffusion"),
      "publierDossiersVS" := Prop(aut, "PublierDossiersVS"),
      "consulterMemosEleve" := Prop(aut, "ConsulterMemosEleve"),
      "saisirMemos" := Prop(aut, "SaisirMemos"),
      "avecSaisieDispense" := Prop(aut, "avecSaisieDispense")]
  }

  /** The administration flags for incidents, punishments and sanction reasons. */
  const SanctionKeys: set<string> := {
    "incidents", "avecPublicationPunitions", "avecAccesPunitions", "avecSaisiePunitions",
    "avecCreerMotifIncidentPunitionSanction"}

  function SanctionFlags(aut: Value): (r: map<string, Value>)
    ensures r.Keys == SanctionKeys
  {
    map[
      "incidents" := Prop(aut, "incidents"),
      "avecPublicationPunitions" := Prop(aut, "AvecPublicationPunitions"),
      "avecAccesPunitions" := Prop(aut, "avecAccesPunitions"),
      "avecSaisiePunitions" := Prop(aut, "avecSaisiePunitions"),
      "avecCreerMotifIncidentPunitionSanction" := Prop(aut, "avecCreerMotifIncidentPunitionSanction")]
  }

  /** The administration authorizations: the flags, copied one by one, then
      the groups. */
  function AdministrationAuthorizations(aut: Value): (r: map<string, Value>)
    ensures r.Keys == AdministrationKeys
  {
    ConsultationFlags(aut) + LessonEntryFlags(aut) + IncidentEntryFlags(aut) + AbsenceFlags(aut)
    + PublicationFlags(aut) + SanctionFlags(aut) + AdministrationGroups(aut)
  }

  /** The names of the administration authorizations. */
  const AdministrationKeys: set<string> := AdministrationFlagKeys + AdministrationGroupKeys

  /** The names of the administration flags copied one by one. */
  const AdministrationFlagKeys: set<string> :=
    ConsultationKeys + LessonEntryKeys + IncidentEntryKeys + AbsenceKeys + PublicationKeys + SanctionKeys

  /** The `data` of the administration fragment: the teachers and the
      classes. */
  function AdministrationLists(c: Collaborators, user: Value): (r: map<string, Value>)
    ensures r.Keys == {"listeProfesseurs", "listeClasses"}
  {
    map[
      "listeProfesseurs" := c.parse(Prop(Prop(user, "ressource"), "listeProfesseurs")),
      "listeClasses" := c.parse(Prop(user, "listeClasses"))]
  }

  /** `getAdministrationData(session, data)`. */
  function AdministrationData(c: Collaborators, user: Value): (r: RoleFragment)
    ensures r.Fragment? && r.data.Keys == {"listeProfesseurs", "listeClasses"}
    ensures r.authorizations.Keys == AdministrationKeys
  {
    Fragment(AdministrationLists(c, user), AdministrationAuthorizations(Prop(user, "autorisations")))
  }

  /** The role names the `switch` has a `case` for. */
  const Listed: set<string> := {"student", "parent", "teacher", "administration"}

  /** `getSpecificData(session, data)`: a `switch` on `session.type.name`. */
  function GetSpecificData(c: Collaborators, session: Session, user: Value): (r: Result<RoleFragment>)
    ensures r.Thrown? ==> session.roleName == "parent"
  {
    var name := session.roleName;
    if name == "student" then Ok(StudentData(c, session, user))
    else if name == "parent" then ParentData(c, session, user)
    else if name == "teacher" then Ok(NoFragment)
    else if name == "administration" then Ok(AdministrationData(c, user))
    else Ok(EmptyObject)
  }

  /** Each listed role goes to its own handler; `teacher` gets `undefined`,
      which cannot be destructured; any other name gets `{}`, which
      contributes no data and no authorizations. */
  lemma Dispatch(c: Collaborators, session: Session, user: Value)
    ensures session.roleName == "student" ==> GetSpecificData(c, session, user) == Ok(StudentData(c, session, user))
    ensures session.roleName == "parent" ==> GetSpecificData(c, session, user) == ParentData(c, session, user)
    ensures session.roleName == "administration" ==> GetSpecificData(c, session, user) == Ok(AdministrationData(c, user))
    ensures session.roleName == "teacher" ==> GetSpecificData(c, session, user) == Ok(NoFragment)
    ensures session.roleName !in Listed ==> GetSpecificData(c, session, user) == Ok(EmptyObject)
  {
    var name := session.roleName;
    if name == "student" {
    } else if name == "parent" {
    } else if name == "teacher" {
      assert GetSpecificData(c, session, user) == Ok(NoFragment);
    } else if name == "administration" {
    } else {
      assert GetSpecificData(c, session, user) == Ok(EmptyObject);
    }
  }

  /** The dispatcher's result can be destructured exactly when the role is not
      `teacher` and, for a parent, `listeRessources` is an array. */
  lemma UsableFragment(c: Collaborators, session: Session, user: Value)
    ensures var f := GetSpecificData(c, session, user);
      (f.Ok? && f != Ok(NoFragment)) <==>
        && session.roleName != "teacher"
        && (session.roleName == "parent" ==> Prop(Prop(user, "ressource"), "listeRessources").Arr?)
  {
    Dispatch(c, session, user);
  }

  /** The student fragment adds the student record to the profile and one
      authorization, `maxUserWorkFileSize`. */
  lemma StudentFragment(c: Collaborators, session: Session, user: Value)
    requires session.roleName == "student"
    ensures var f := GetSpecificData(c, session, user);
      && f.Ok? && f.value.Fragment?
      && f.value.data == GetStudent(c, session, Prop(user, "ressource"))
      && f.value.authorizations.Keys == {"maxUserWorkFileSize"}
  {
  }

  /** The parent fragment's authorizations are exactly its five flags. */
  lemma ParentAuthorizationKeys(c: Collaborators, session: Session, user: Value)
    requires ParentData(c, session, user).Ok?
    ensures ParentData(c, session, user).value.authorizations.Keys ==
      {"staffDiscussion", "parentsDiscussion", "editStudentPassword", "editCoordinates", "editAuthorizations"}
  {
  }

  /** Both times of a session entry come from the same date string and the
      two hour strings, each advanced on its own. */
  lemma SessionEntryTimes(c: Collaborators, raw: Value)
    requires c.parse(Prop(raw, "date")).DateVal?
    requires Prop(raw, "strHeureDebut").Str? && Prop(raw, "strHeureFin").Str?
    ensures var t := c.parse(Prop(raw, "date")).time;
      && Prop(SessionEntry(c, raw), "from") == DateVal(t + Hours.OffsetMinutes(Prop(raw, "strHeureDebut").s))
      && Prop(SessionEntry(c, raw), "to") == DateVal(t + Hours.OffsetMinutes(Prop(raw, "strHeureFin").s))
  {
    var d := c.parse(Prop(raw, "date"));
    var start, end := Prop(raw, "strHeureDebut"), Prop(raw, "strHeureFin");
    assert SessionEntry(c, raw) == Obj(map["from" := DateWithHoursValue(d, start), "to" := DateWithHoursValue(d, end)]);
    ReadEntry(DateWithHoursValue(d, start), DateWithHoursValue(d, end));
  }

  /** Reading back the two fields of a `{ from, to }` literal. */
  lemma ReadEntry(from: Value, to: Value)
    ensures Prop(Obj(map["from" := from, "to" := to]), "from") == from
    ensures Prop(Obj(map["from" := from, "to" := to]), "to") == to
  {
  }
}
