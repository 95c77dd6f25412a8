/** `getStudent(session, res)`: the record of one student, built from the raw
    student resource. Used for the student's own profile and, once per child,
    for a parent's. */
module Student {
  import opened JsValue
  import opened Externals

  /** One entry of the class history: `{ hadMarks, hadOptions }`. */
  function ClassHistoryEntry(raw: Value): (r: Value)
    ensures r.Obj? && r.props.Keys == {"hadMarks", "hadOptions"}
    ensures Prop(r, "hadMarks") == Prop(raw, "AvecNote") && Prop(r, "hadOptions") == Prop(raw, "AvecFiliere")
  {
    Obj(map["hadMarks" := Prop(raw, "AvecNote"), "hadOptions" := Prop(raw, "AvecFiliere")])
  }

  /** `Service && parse(Service)`: the subject of a pillar. */
  function Subject(c: Collaborators, service: Value): (r: Value)
    ensures !Truthy(service) ==> r == service
    ensures Truthy(service) ==> r == c.parse(service)
  {
    And(service, c.parse(service))
  }

  /** One competency pillar: `{ isForeignLanguage, isCoreSkill, subject }`. */
  function Pillar(c: Collaborators, raw: Value): (r: Value)
    ensures r.Obj? && r.props.Keys == {"isForeignLanguage", "isCoreSkill", "subject"}
    ensures var s := Prop(raw, "Service");
      r.props["subject"] == if Truthy(s) then c.parse(s) else s
  {
    Obj(map[
      "isForeignLanguage" := Prop(raw, "estPilierLVE"),
      "isCoreSkill" := Prop(raw, "estSocleCommun"),
      "subject" := Subject(c, Prop(raw, "Service"))])
  }

  /** One level of a pillar tab: `{ pillars }`. */
  function Level(c: Collaborators, raw: Value): (r: Value)
    ensures r.Obj? && r.props.Keys == {"pillars"}
  {
    Obj(map["pillars" := c.parseWith(Prop(raw, "listePiliers"), (p: Value) => Pillar(c, p), None)])
  }

  /** One pillar tab: `{ levels }`. */
  function PillarTab(c: Collaborators, raw: Value): (r: Value)
    ensures r.Obj? && r.props.Keys == {"levels"}
  {
    Obj(map["levels" := c.parseWith(Prop(raw, "listePaliers"), (l: Value) => Level(c, l), None)])
  }

  /** `GenreNotation === 1`. */
  predicate IsCorePeriod(raw: Value)
    ensures IsCorePeriod(raw) ==> raw.Obj? && "GenreNotation" in raw.props && raw.props["GenreNotation"].Num?
  {
    Prop(raw, "GenreNotation") == Num(1.0)
  }

  /** One period: `{ isCorePeriod }`. */
  function Period(raw: Value): (r: Value)
    ensures r.Obj? && r.props.Keys == {"isCorePeriod"} && r.props["isCorePeriod"].Bool?
    ensures r.props["isCorePeriod"] == Bool(true) <==> Prop(raw, "GenreNotation") == Num(1.0)
  {
    Obj(map["isCorePeriod" := Bool(IsCorePeriod(raw))])
  }

  /** One period tab: `{ periods, defaultPeriod }`. */
  function PeriodTab(c: Collaborators, raw: Value): (r: Value)
    ensures r.Obj? && r.props.Keys == {"periods", "defaultPeriod"}
  {
    Obj(map[
      "periods" := c.parseWith(Prop(raw, "listePeriodes"), Period, None),
      "defaultPeriod" := c.parse(Prop(raw, "periodeParDefaut"))])
  }

  /** The file `{ id: res.N, name: 'photo.jpg' }` the avatar points to. */
  function PhotoFile(res: Value): Value
  {
    Obj(map["id" := Prop(res, "N"), "name" := Str("photo.jpg")])
  }

  /** The `avatar` object: empty, and given an `avatar` property only when
      `res.avecPhoto` is truthy. */
  function Avatar(c: Collaborators, session: Session, res: Value): (r: map<string, Value>)
    ensures r.Keys <= {"avatar"}
  {
    if Truthy(Prop(res, "avecPhoto")) then map["avatar" := c.fileURL(session, PhotoFile(res))] else map[]
  }

  /** The keys `getStudent` always writes after the generic fields. */
  const StudentKeys: set<string> :=
    {"establishment", "studentClass", "classHistory", "groups", "tabsPillars", "tabsPeriods"}

  /** `getStudent(session, res)`. Later entries of the object literal override
      earlier ones, as `+` on maps does. */
  function GetStudent(c: Collaborators, session: Session, res: Value): (r: map<string, Value>)
    ensures StudentKeys <= r.Keys
    ensures r.Keys <= c.fromPronote(res).Keys + StudentKeys + {"avatar"}
  {
    c.fromPronote(res)
    + map["establishment" := c.parse(Prop(res, "Etablissement"))]
    + Avatar(c, session, res)
    + ClassAndTabs(c, res)
  }

  /** The entries of `getStudent`'s object literal after the avatar. */
  function ClassAndTabs(c: Collaborators, res: Value): (r: map<string, Value>)
    ensures r.Keys == StudentKeys - {"establishment"}
  {
    map[
      "studentClass" := Obj(c.fromPronote(Prop(res, "classeDEleve"))),
      "classHistory" := c.parseWith(Prop(res, "listeClassesHistoriques"), ClassHistoryEntry, None),
      "groups" := c.parse(Prop(res, "listeGroupes")),
      "tabsPillars" := c.parseWith(Prop(res, "listeOngletsPourPiliers"), (t: Value) => PillarTab(c, t), Some("tab")),
      "tabsPeriods" := c.parseWith(Prop(res, "listeOngletsPourPeriodes"), (t: Value) => PeriodTab(c, t), Some("tab"))]
  }

  /** The student record has an `avatar` exactly when `avecPhoto` is truthy
      (or when the generic fields already carry one), and when `avecPhoto` is
      truthy it is the URL of the resource's `photo.jpg`. */
  lemma StudentAvatar(c: Collaborators, session: Session, res: Value)
    ensures var r := GetStudent(c, session, res);
      && ("avatar" in r <==> Truthy(Prop(res, "avecPhoto")) || "avatar" in c.fromPronote(res))
      && (Truthy(Prop(res, "avecPhoto")) ==>
            r["avatar"] == c.fileURL(session, Obj(map["id" := Prop(res, "N"), "name" := Str("photo.jpg")])))
      && (!Truthy(Prop(res, "avecPhoto")) && "avatar" in c.fromPronote(res) ==>
            r["avatar"] == c.fromPronote(res)["avatar"])
  {
    var head := c.fromPronote(res) + map["establishment" := c.parse(Prop(res, "Etablissement"))];
    var avatar := Avatar(c, session, res);
    var tail := ClassAndTabs(c, res);
    assert "avatar" !in tail;
    assert "avatar" in head <==> "avatar" in c.fromPronote(res);
    assert "avatar" in c.fromPronote(res) ==> head["avatar"] == c.fromPronote(res)["avatar"];
    assert PhotoFile(res) == Obj(map["id" := Prop(res, "N"), "name" := Str("photo.jpg")]);
  }

  /** The fields the student builder sets itself, whatever the generic fields
      hold: the establishment, the current class and the two tab lists. */
  lemma StudentFields(c: Collaborators, session: Session, res: Value)
    ensures var r := GetStudent(c, session, res);
      && r.Keys == c.fromPronote(res).Keys + StudentKeys
                   + (if Truthy(Prop(res, "avecPhoto")) then {"avatar"} else {})
      && r["establishment"] == c.parse(Prop(res, "Etablissement"))
      && r["studentClass"] == Obj(c.fromPronote(Prop(res, "classeDEleve")))
      && r["groups"] == c.parse(Prop(res, "listeGroupes"))
  {
    var head := c.fromPronote(res) + map["establishment" := c.parse(Prop(res, "Etablissement"))];
    var avatar := Avatar(c, session, res);
    var tail := ClassAndTabs(c, res);
    assert avatar.Keys == if Truthy(Prop(res, "avecPhoto")) then {"avatar"} else {};
    assert "establishment" !in tail && "establishment" !in avatar;
    assert tail["studentClass"] == Obj(c.fromPronote(Prop(res, "classeDEleve")));
    assert tail["groups"] == c.parse(Prop(res, "listeGroupes"));
  }

  /** `isCorePeriod` is true only for the number 1: the string "1", `true`,
      2, 0 and an absent code all give false. */
  lemma CorePeriodExamples()
    ensures Period(Obj(map["GenreNotation" := Num(1.0)])) == Obj(map["isCorePeriod" := Bool(true)])
    ensures Period(Obj(map["GenreNotation" := Str("1")])) == Obj(map["isCorePeriod" := Bool(false)])
    ensures Period(Obj(map["GenreNotation" := Bool(true)])) == Obj(map["isCorePeriod" := Bool(false)])
    ensures Period(Obj(map["GenreNotation" := Num(2.0)])) == Obj(map["isCorePeriod" := Bool(false)])
    ensures Period(Obj(map["GenreNotation" := Num(0.0)])) == Obj(map["isCorePeriod" := Bool(false)])
    ensures Period(Obj(map[])) == Obj(map["isCorePeriod" := Bool(false)])
  {
  }

  /** `isCorePeriod` holds exactly when `GenreNotation` is the number 1; in
      particular it never holds for a falsy or a non-numeric code. */
  lemma CorePeriodStrict(raw: Value)
    ensures Prop(Period(raw), "isCorePeriod") == Bool(Prop(raw, "GenreNotation") == Num(1.0))
    ensures IsCorePeriod(raw) ==> Truthy(Prop(raw, "GenreNotation")) && Prop(raw, "GenreNotation").Num?
  {
  }

  /** A pillar's `subject` is the falsy `Service` itself when `Service` is
      falsy, and the parsed `Service` otherwise; the pillar's flags are
      copied as they are. */
  lemma PillarSubject(c: Collaborators, raw: Value)
    ensures var s := Prop(raw, "Service");
      && Prop(Pillar(c, raw), "subject") == (if Truthy(s) then c.parse(s) else s)
      && Prop(Pillar(c, raw), "isForeignLanguage") == Prop(raw, "estPilierLVE")
      && Prop(Pillar(c, raw), "isCoreSkill") == Prop(raw, "estSocleCommun")
  {
  }
}
